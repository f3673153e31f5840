/**
 pkg/consensus as the source writes it: the goroutine of one instance on one process, an object
 updated in place by Prepare, Accept and Learn requests, and the drawing of proposal numbers.
 */
module ConsensusWorker {
  import opened Views
  import opened Addresses
  import opened Consensus

  /** consensusWorker: each method does to the object what the step functions of Consensus say. */
  class InstanceWorker {
    var accepted: Proposal
    var promise: int
    var learnCounter: nat
    var delivered: Option<ViewSeq>       // what was sent on callbackLearnChan
    var learnBroadcasts: seq<Proposal>   // Learn requests broadcast so far

    function Abstract(): Acceptor
      reads this
    {
      Acceptor(accepted, promise)
    }

    constructor ()
      ensures Abstract() == Acceptor(NOTHING, 0) && learnCounter == 0 && delivered == None && learnBroadcasts == []
    {
      accepted, promise, learnCounter, delivered, learnBroadcasts := NOTHING, 0, 0, None, [];
    }

    method Prepare(n: int) returns (reply: Option<Proposal>)
      modifies `promise
      ensures (Abstract(), reply) == OnPrepare(old(Abstract()), n)
      ensures promise >= n && promise >= old(promise) && (reply.Some? <==> n > old(promise))
    {
      if n > promise {
        promise := n;
        return Some(accepted);
      } else {
        return None;
      }
    }

    method Accept(proposal: Proposal) returns (ok: bool)
      modifies `accepted, `learnBroadcasts
      ensures (Abstract(), ok) == OnAccept(old(Abstract()), proposal)
      ensures learnBroadcasts == if ok then old(learnBroadcasts) + [proposal] else old(learnBroadcasts)
    {
      if proposal.n >= promise {
        accepted := proposal;
        learnBroadcasts := learnBroadcasts + [proposal];
        return true;
      } else {
        return false;
      }
    }

    method Learn(value: ViewSeq, quorumSize: nat)
      modifies `learnCounter, `delivered
      ensures forall seen, vote: (Process, int) ::
                var l := OnLearn(Learner(old(learnCounter), seen, old(delivered)), vote, value, quorumSize);
                learnCounter == l.count && delivered == l.delivered
    {
      learnCounter := learnCounter + 1;
      if learnCounter == quorumSize {
        delivered := Some(value);
      }
    }
  }

  // ----- proposal numbers -----

  /** The number after `last` for a process at `position` among n members. */
  function NextNumber(last: Option<int>, n: nat, position: int): int
    requires n > 0
  {
    match last
    case None => n + position
    case Some(k) => k - k % n + n + position
  }

  /** getNextProposalNumber: the numbers are stored under the number of updates of the view. */
  class ProposalNumbers {
    var storage: map<nat, int>

    constructor ()
      ensures storage == map[]
    {
      storage := map[];
    }

    method GetNextProposalNumber(v: View, thisProcess: Process) returns (number: Option<int>)
      modifies `storage
      ensures Members(v) == {} ==> number == None && storage == old(storage)
      ensures Members(v) != {} ==>
                var last := if |v| in old(storage) then Some(old(storage)[|v|]) else None;
                && number == Some(NextNumber(last, |Members(v)|, Position(Members(v), thisProcess)))
                && storage == old(storage)[|v| := number.value]
    {
      var members := Members(v);
      if members == {} {
        return None;                     // the source ends the process here
      }
      assert |members| > 0;
      var position := GetProcessPosition(members, thisProcess);
      var last := if |v| in storage then Some(storage[|v|]) else None;
      number := Some(NextNumber(last, |members|, position));
      storage := storage[|v| := number.value];
    }
  }

  /** The k-th number (from 0) that a process draws in one instance, each from the one before. */
  function Drawn(n: nat, position: int, k: nat): int
    requires n > 0
  {
    NextNumber(if k == 0 then None else Some(Drawn(n, position, k - 1)), n, position)
  }

  lemma AtLeastOnce(d: int, n: nat)
    ensures d >= 1 ==> d * n >= n
    ensures d <= -1 ==> d * n <= 0 - n
  {
    if d >= 1 {
      assert (d - 1) * n >= 0;
      assert d * n == (d - 1) * n + n;
    } else if d <= -1 {
      assert (d + 1) * n <= 0;
      assert d * n == (d + 1) * n - n;
    }
  }

  lemma RemainderOf(n: nat, a: int, r: nat)
    requires r < n
    ensures (a * n + r) % n == r
  {
    var x := a * n + r;
    var q := x / n;
    assert x == q * n + x % n;
    assert (a - q) * n == a * n - q * n;
    AtLeastOnce(a - q, n);
  }

  /** A member's numbers are n + position, 2n + position, ... */
  lemma {:induction false} DrawnByMember(n: nat, position: nat, k: nat)
    requires position < n
    ensures Drawn(n, position, k) == (k + 1) * n + position
  {
    if k > 0 {
      DrawnByMember(n, position, k - 1);
      RemainderOf(n, k, position);
      assert (k + 1) * n == k * n + n;
    }
  }

  /** Two members never draw the same number, in any numbers of calls. */
  lemma {:induction false} MembersNeverCollide(m: set<Process>, p: Process, q: Process, i: nat, j: nat)
    requires p in m && q in m && p != q
    ensures Drawn(|m|, Position(m, p), i) != Drawn(|m|, Position(m, q), j)
  {
    PositionInRange(m, p);
    PositionInRange(m, q);
    PositionInjective(m, p, q);
    DrawnByMember(|m|, Position(m, p), i);
    DrawnByMember(|m|, Position(m, q), j);
    RemainderOf(|m|, i + 1, Position(m, p));
    RemainderOf(|m|, j + 1, Position(m, q));
  }

  lemma {:induction false} DrawnByOutsider(n: nat, k: nat)
    requires n > 0
    ensures Drawn(n, -1, k) == n - 1
  {
    if k > 0 {
      DrawnByOutsider(n, k - 1);
      RemainderOf(n, 0, n - 1);
    }
  }

  lemma {:induction false} DrawnIncreases(n: nat, position: nat, i: nat, j: nat)
    requires position < n && i < j
    ensures 0 < Drawn(n, position, i) < Drawn(n, position, j)
  {
    DrawnByMember(n, position, i);
    DrawnByMember(n, position, j);
    AtLeastOnce(i + 1, n);
    AtLeastOnce(j - i, n);
    assert (j + 1) * n == (i + 1) * n + (j - i) * n;
  }

  ghost predicate Rises(n: nat, position: int, i: nat, j: nat)
    requires n > 0
  {
    0 < Drawn(n, position, i) < Drawn(n, position, j)
  }

  ghost predicate Increasing(n: nat, position: int)
    requires n > 0
  {
    forall i: nat, j: nat | i < j :: Rises(n, position, i, j)
  }

  lemma MembersIncrease(n: nat, position: nat)
    requires position < n
    ensures Increasing(n, position)
  {
    forall i: nat, j: nat | i < j
      ensures Rises(n, position, i, j)
    {
      DrawnIncreases(n, position, i, j);
    }
  }

  /** A process's numbers are positive and strictly increasing if and only if it is a member:
      an outsider, at position -1, draws the same number for ever. */
  lemma NumbersIncreaseIffMember(m: set<Process>, p: Process)
    requires |m| > 0
    ensures Increasing(|m|, Position(m, p)) <==> p in m
  {
    if p in m {
      PositionInRange(m, p);
      MembersIncrease(|m|, Position(m, p));
    } else {
      DrawnByOutsider(|m|, 0);
      DrawnByOutsider(|m|, 1);
      assert !Rises(|m|, -1, 0, 1);
    }
  }
}
