/**
 pkg/client as the source writes it: the receive loops of readQuorum and writeQuorum, their
 retries in more updated views, and the Read and Write operations with their sticky error.

 The network is a script: for each attempt the answers in order of arrival and what the client
 would get if it then asked for a newer view. An attempt or a script that runs out of answers
 blocks for ever.
 */
module Client {
  import opened Views
  import opened RegisterSystem
  import QuorumWaits

  datatype Answer = Reply(reg: Register) | OldView(view: View) | Error

  datatype Attempt = Attempt(answers: seq<Answer>, further: Option<View>)

  /** The registers answered, in order; refusals for an old view and errors carry none. */
  function Regs(answers: seq<Answer>): (regs: seq<Register>)
    ensures |regs| <= |answers|
  {
    if answers == [] then []
    else
      var rest, last := Regs(answers[..|answers| - 1]), answers[|answers| - 1];
      if last.Reply? then rest + [last.reg] else rest
  }

  function Errors(answers: seq<Answer>): nat {
    if answers == [] then 0
    else Errors(answers[..|answers| - 1]) + (if answers[|answers| - 1].Error? then 1 else 0)
  }

  predicate Newer(a: Answer, destination: View) {
    a.OldView? && destination < a.view
  }

  predicate NoneNewer(answers: seq<Answer>, destination: View) {
    forall a | a in answers :: !Newer(a, destination)
  }

  lemma {:induction false} CountsGrow(answers: seq<Answer>, i: nat)
    requires i <= |answers|
    ensures |Regs(answers[..i])| <= |Regs(answers)| && Errors(answers[..i]) <= Errors(answers)
    decreases |answers| - i
  {
    if i == |answers| {
      assert answers[..i] == answers;
    } else {
      assert answers[..i + 1][..i] == answers[..i];
      CountsGrow(answers, i + 1);
    }
  }

  /** How the next answer changes the counts. */
  lemma CountsStep(answers: seq<Answer>, i: nat, destination: View)
    requires i < |answers|
    ensures Regs(answers[..i + 1])
            == if answers[i].Reply? then Regs(answers[..i]) + [answers[i].reg] else Regs(answers[..i])
    ensures Errors(answers[..i + 1]) == Errors(answers[..i]) + if answers[i].Error? then 1 else 0
    ensures NoneNewer(answers[..i + 1], destination)
            <==> NoneNewer(answers[..i], destination) && !Newer(answers[i], destination)
  {
    assert answers[..i + 1] == answers[..i] + [answers[i]] && answers[..i + 1][..i] == answers[..i];
  }

  /** When everyone has answered without an intolerable number of errors, a quorum replied. */
  lemma EveryoneAnswered(n: nat, replies: nat, failed: nat)
    requires replies + failed == n && failed <= ToleratedFaults(n)
    ensures replies >= QuorumSize(n)
  {
  }

  // ----- one attempt -----

  /** After `seen` the loop waits for another answer. */
  ghost predicate Unsettled(destination: View, n: nat, seen: seq<Answer>) {
    && NoneNewer(seen, destination) && |Regs(seen)| < QuorumSize(n)
    && (n > 0 ==> |Regs(seen)| + Errors(seen) < n)
  }

  ghost predicate UnsettledUntil(destination: View, n: nat, answers: seq<Answer>, i: nat)
    requires i <= |answers|
  {
    forall k | 0 <= k < i :: Unsettled(destination, n, answers[..k])
  }

  /** A loop that still waits has waited so far. */
  lemma StillWaiting(destination: View, n: nat, answers: seq<Answer>, i: nat)
    requires i < |answers| && UnsettledUntil(destination, n, answers, i) && Unsettled(destination, n, answers[..i])
    ensures UnsettledUntil(destination, n, answers, i + 1)
    ensures |answers[..i + 1]| == i + 1 && answers[..i + 1][i] == answers[i]
  {
  }

  datatype ReadOutcome = Got(reg: Register, differ: bool) | Redirected(view: View) | AllFailed | Blocked

  /** What an attempt that stops after `seen` means for a view with n members. */
  ghost predicate ReadMeans(destination: View, n: nat, seen: seq<Answer>, r: ReadOutcome) {
    match r
    case Got(reg, differ) =>
      && NoneNewer(seen, destination) && |Regs(seen)| == QuorumSize(n)
      && reg == Newest(Regs(seen), INITIAL)
      && (differ <==> exists x :: x in Regs(seen) && x.ts != reg.ts)
    case Redirected(view) => seen != [] && seen[|seen| - 1] == OldView(view) && destination < view
    case AllFailed =>
      NoneNewer(seen, destination) && |Regs(seen)| + Errors(seen) == n > 0 && Errors(seen) > ToleratedFaults(n)
    case Blocked => Unsettled(destination, n, seen)
  }

  /** The attempt ends with r after `used` answers, and not earlier. */
  ghost predicate ReadEnds(destination: View, n: nat, answers: seq<Answer>, r: ReadOutcome, used: nat) {
    && used <= |answers| && ReadMeans(destination, n, answers[..used], r)
    && (if r.Blocked? then used == |answers| else used > 0)
    && UnsettledUntil(destination, n, answers, used)
  }

  /** So its end is determined by the answers. */
  lemma ReadEndsOnce(
      destination: View, n: nat, answers: seq<Answer>, r: ReadOutcome, used: nat, r': ReadOutcome, used': nat)
    requires ReadEnds(destination, n, answers, r, used) && ReadEnds(destination, n, answers, r', used')
    ensures r == r' && used == used'
  {
    if !r.Blocked? { SettledAt(destination, n, answers, r, used); }
    if !r'.Blocked? { SettledAt(destination, n, answers, r', used'); }
    if used == used' && !r.Blocked? { assert answers[..used][used - 1] in answers[..used]; }
  }

  lemma SettledAt(destination: View, n: nat, answers: seq<Answer>, r: ReadOutcome, used: nat)
    requires used <= |answers| && ReadMeans(destination, n, answers[..used], r) && !r.Blocked? && used > 0
    ensures !Unsettled(destination, n, answers[..used])
  {
    assert answers[..used][used - 1] in answers[..used];
  }

  /** What a prefix of the answers of all n members says about all of them. */
  lemma {:induction false} Verdict(destination: View, n: nat, answers: seq<Answer>, used: nat)
    requires used <= |answers| && 0 < n == |Regs(answers)| + Errors(answers) && NoneNewer(answers, destination)
    ensures |Regs(answers[..used])| >= QuorumSize(n) ==> |Regs(answers)| >= QuorumSize(n)
    ensures |Regs(answers[..used])| + Errors(answers[..used]) == n && Errors(answers[..used]) > ToleratedFaults(n)
            ==> |Regs(answers)| < QuorumSize(n)
    ensures used > 0 && answers[used - 1].OldView? ==> !(destination < answers[used - 1].view)
  {
    CountsGrow(answers, used);
    assert used > 0 ==> answers[used - 1] in answers;
  }

  /** If n answers count and none names a newer view, the loop stops, and it finds a value
      exactly when a quorum of the first n counted answers are replies. */
  method ReadAttempt(destination: View, n: nat, answers: seq<Answer>) returns (r: ReadOutcome, used: nat)
    ensures ReadEnds(destination, n, answers, r, used)
    ensures 0 < n <= |Regs(answers)| + Errors(answers) ==> !r.Blocked?
    ensures 0 < n == |Regs(answers)| + Errors(answers) && NoneNewer(answers, destination) ==>
              (r.Got? <==> |Regs(answers)| >= QuorumSize(n)) && (r.AllFailed? <==> |Regs(answers)| < QuorumSize(n))
  {
    r, used := ReadLoop(destination, n, answers);
    assert answers[..|answers|] == answers;
    if 0 < n == |Regs(answers)| + Errors(answers) && NoneNewer(answers, destination) {
      Verdict(destination, n, answers, used);
    }
  }

  method ReadLoop(destination: View, n: nat, answers: seq<Answer>) returns (r: ReadOutcome, used: nat)
    ensures ReadEnds(destination, n, answers, r, used)
  {
    QuorumSizeIsMajority(n);
    var failed, final := 0, INITIAL;
    var results: seq<Register> := [];
    for i := 0 to |answers|
      invariant results == Regs(answers[..i]) && failed == Errors(answers[..i])
      invariant final == Newest(results, INITIAL)
      invariant UnsettledUntil(destination, n, answers, i) && Unsettled(destination, n, answers[..i])
    {
      StillWaiting(destination, n, answers, i);
      CountsStep(answers, i, destination);
      if answers[i].OldView? {
        var more := MoreUpdatedThan(answers[i].view, destination);
        if more {
          return Redirected(answers[i].view), i + 1;
        }
        continue;    // the same process is asked again; nothing is counted
      }
      if answers[i].Error? {
        failed := failed + 1;
      } else {
        NewestAppend(results, answers[i].reg, INITIAL);
        results := results + [answers[i].reg];
        if answers[i].reg.ts > final.ts {
          final := answers[i].reg;
        }
      }
      var everyProcessReturned := |results| + failed == n;
      if everyProcessReturned && failed > ToleratedFaults(n) {
        return AllFailed, i + 1;
      }
      if everyProcessReturned { EveryoneAnswered(n, |results|, failed); }
      if |results| == QuorumSize(n) {
        var differ := Divergent(results, final);
        return Got(final, differ), i + 1;
      }
    }
    assert answers[..|answers|] == answers;
    return Blocked, |answers|;
  }

  method Divergent(results: seq<Register>, final: Register) returns (differ: bool)
    ensures differ <==> exists x :: x in results && x.ts != final.ts
  {
    for i := 0 to |results|
      invariant forall j | 0 <= j < i :: results[j].ts == final.ts
    {
      if final.ts != results[i].ts { return true; }
    }
    return false;
  }

  datatype WriteOutcome = Acknowledged | Moved(view: View) | NoQuorum | Stuck

  ghost predicate WriteMeans(destination: View, n: nat, seen: seq<Answer>, r: WriteOutcome) {
    match r
    case Acknowledged => NoneNewer(seen, destination) && |Regs(seen)| == QuorumSize(n)
    case Moved(view) => seen != [] && seen[|seen| - 1] == OldView(view) && destination < view
    case NoQuorum =>
      NoneNewer(seen, destination) && |Regs(seen)| + Errors(seen) == n > 0 && Errors(seen) > ToleratedFaults(n)
    case Stuck => Unsettled(destination, n, seen)
  }

  ghost predicate WriteEnds(destination: View, n: nat, answers: seq<Answer>, r: WriteOutcome, used: nat) {
    && used <= |answers| && WriteMeans(destination, n, answers[..used], r)
    && (if r.Stuck? then used == |answers| else used > 0)
    && UnsettledUntil(destination, n, answers, used)
  }

  lemma WriteEndsOnce(
      destination: View, n: nat, answers: seq<Answer>, r: WriteOutcome, used: nat, r': WriteOutcome, used': nat)
    requires WriteEnds(destination, n, answers, r, used) && WriteEnds(destination, n, answers, r', used')
    ensures r == r' && used == used'
  {
    if !r.Stuck? { WriteSettledAt(destination, n, answers, r, used); }
    if !r'.Stuck? { WriteSettledAt(destination, n, answers, r', used'); }
    if used == used' && !r.Stuck? { assert answers[..used][used - 1] in answers[..used]; }
  }

  lemma WriteSettledAt(destination: View, n: nat, answers: seq<Answer>, r: WriteOutcome, used: nat)
    requires used <= |answers| && WriteMeans(destination, n, answers[..used], r) && !r.Stuck? && used > 0
    ensures !Unsettled(destination, n, answers[..used])
  {
    assert answers[..used][used - 1] in answers[..used];
  }

  method WriteAttempt(destination: View, n: nat, answers: seq<Answer>) returns (r: WriteOutcome, used: nat)
    ensures WriteEnds(destination, n, answers, r, used)
    ensures 0 < n <= |Regs(answers)| + Errors(answers) ==> !r.Stuck?
    ensures 0 < n == |Regs(answers)| + Errors(answers) && NoneNewer(answers, destination) ==>
              && (r.Acknowledged? <==> |Regs(answers)| >= QuorumSize(n))
              && (r.NoQuorum? <==> |Regs(answers)| < QuorumSize(n))
  {
    r, used := WriteLoop(destination, n, answers);
    assert answers[..|answers|] == answers;
    if 0 < n == |Regs(answers)| + Errors(answers) && NoneNewer(answers, destination) {
      Verdict(destination, n, answers, used);
    }
  }

  method WriteLoop(destination: View, n: nat, answers: seq<Answer>) returns (r: WriteOutcome, used: nat)
    ensures WriteEnds(destination, n, answers, r, used)
  {
    QuorumSizeIsMajority(n);
    var failed, succeeded := 0, 0;
    for i := 0 to |answers|
      invariant succeeded == |Regs(answers[..i])| && failed == Errors(answers[..i])
      invariant UnsettledUntil(destination, n, answers, i) && Unsettled(destination, n, answers[..i])
    {
      StillWaiting(destination, n, answers, i);
      CountsStep(answers, i, destination);
      if answers[i].OldView? {
        var more := MoreUpdatedThan(answers[i].view, destination);
        if more {
          return Moved(answers[i].view), i + 1;
        }
        continue;
      }
      if answers[i].Error? {
        failed := failed + 1;
      } else {
        succeeded := succeeded + 1;
      }
      var everyProcessReturned := succeeded + failed == n;
      if everyProcessReturned && failed > ToleratedFaults(n) {
        return NoQuorum, i + 1;
      }
      if everyProcessReturned { EveryoneAnswered(n, succeeded, failed); }
      if succeeded == QuorumSize(n) {
        return Acknowledged, i + 1;
      }
    }
    assert answers[..|answers|] == answers;
    return Stuck, |answers|;
  }

  // ----- the same verdict as the loops that stop early -----

  /** Which of the answers are replies. */
  function Flags(answers: seq<Answer>): seq<bool> {
    seq(|answers|, i requires 0 <= i < |answers| => answers[i].Reply?)
  }

  /** If nobody names another view, every answer is counted. */
  lemma {:induction false} FlagsCount(answers: seq<Answer>)
    requires forall a | a in answers :: !a.OldView?
    ensures QuorumWaits.Successes(Flags(answers)) == |Regs(answers)|
    ensures |answers| == |Regs(answers)| + Errors(answers)
  {
    if answers == [] {
      assert Flags(answers) == [];
    } else {
      var n := |answers| - 1;
      var rest, last := answers[..n], answers[n];
      FlagsCount(rest);
      assert last in answers;
      assert Flags(answers)[..n] == Flags(rest) && Flags(answers)[n] == last.Reply?;
    }
  }

  /** On the answers of all n members, the loop that waits for everyone before it gives up and a
      loop that stops at the first intolerable failure reach the same verdict, for Writes and Reads. */
  lemma SameVerdict(destination: View, n: nat, answers: seq<Answer>, early: QuorumWaits.Verdict,
                    write: WriteOutcome, used: nat, read: ReadOutcome, used': nat)
    requires 0 < n == |answers| && (forall a | a in answers :: !a.OldView?)
    requires QuorumWaits.Decides(n, Flags(answers), early)
    requires used <= n && WriteMeans(destination, n, answers[..used], write) && (write.Stuck? ==> used == n)
    requires used' <= n && ReadMeans(destination, n, answers[..used'], read) && (read.Blocked? ==> used' == n)
    ensures early == QuorumWaits.Success <==> write.Acknowledged?
    ensures early == QuorumWaits.Failure <==> write.NoQuorum?
    ensures early == QuorumWaits.Success <==> read.Got?
    ensures early == QuorumWaits.Failure <==> read.AllFailed?
  {
    FlagsCount(answers);
    Verdict(destination, n, answers, used);
    Verdict(destination, n, answers, used');
    assert answers[..n] == answers;
  }

  /** A first phase that ends with (reg, differ) is a FinishRead step of the register system: over
      the same answers, that step decides exactly what the client goes on to do. */
  lemma {:induction false} FirstPhaseIsFinishRead(
      destination: View, n: nat, seen: seq<Answer>, reg: Register, differ: bool, o: Op, order: seq<Process>, now: nat)
    requires ReadMeans(destination, n, seen, Got(reg, differ)) && o.status.Reading?
    requires (forall p | p in order :: p in o.status.answers) && Answered(order, o.status.answers) == Regs(seen)
    ensures |order| == QuorumSize(n)
    ensures AfterRead(o, order, now) ==
            match SecondPhase(o.kind, reg, differ)
            case Some(msg) => o.(choice := Chosen(msg), status := Writing(o.status.view, {}))
            case None => o.(choice := Chosen(reg), status := Done(o.status.view, now, AsSet(order)))
  {
    assert |Answered(order, o.status.answers)| == |order|;
  }

  // ----- the client -----

  /** Every view the network offers lies within u. */
  ghost predicate OffersWithin(script: seq<Attempt>, u: View) {
    forall a | a in script ::
      && (forall x | x in a.answers && x.OldView? :: x.view <= u)
      && (a.further.Some? ==> a.further.value <= u)
  }

  datatype ReadResult = Found(reg: Register, differ: bool) | ReadFailed | ReadBlocked

  datatype WriteResult = Written | WriteFailed | WriteBlocked

  // ----- one phase: attempts in more and more updated views -----

  /** When an attempt in `view` found no quorum, the client goes on in `next`. */
  ghost predicate GoesOn(view: View, a: Attempt, next: View) {
    a.further == Some(next) && view < next
  }

  /** The attempt in `view` ends with the outcome o. */
  ghost predicate ReadIs(view: View, a: Attempt, o: ReadOutcome) {
    exists k :: ReadEnds(view, |Members(view)|, a.answers, o, k)
  }

  lemma ReadIsOnce(view: View, a: Attempt, o: ReadOutcome, o': ReadOutcome)
    requires ReadIs(view, a, o) && ReadIs(view, a, o')
    ensures o == o'
  {
    var n := |Members(view)|;
    var k :| ReadEnds(view, n, a.answers, o, k);
    var k' :| ReadEnds(view, n, a.answers, o', k');
    ReadEndsOnce(view, n, a.answers, o, k, o', k');
  }

  /** The attempt in `view` makes a first phase start again in `next`. */
  ghost predicate ReadMoves(view: View, a: Attempt, next: View) {
    ReadIs(view, a, Redirected(next)) || (ReadIs(view, a, AllFailed) && GoesOn(view, a, next))
  }

  /** The attempt in `view` is the last one of a first phase that ends with r. */
  ghost predicate ReadStops(view: View, a: Attempt, r: ReadResult) {
    match r
    case Found(reg, differ) => ReadIs(view, a, Got(reg, differ))
    case ReadFailed => ReadIs(view, a, AllFailed) && forall v :: !GoesOn(view, a, v)
    case ReadBlocked => ReadIs(view, a, Blocked)
  }

  /** A first phase that starts in `view` ends with r, in the view `final`, after `used` attempts. */
  ghost predicate ReadPhase(view: View, script: seq<Attempt>, r: ReadResult, used: nat, final: View)
    decreases |script|
  {
    if script == [] then r == ReadBlocked && used == 0 && final == view
    else
      || (used == 1 && final == view && ReadStops(view, script[0], r))
      || (used > 0 && exists v :: ReadMoves(view, script[0], v) && ReadPhase(v, script[1..], r, used - 1, final))
  }

  lemma ReadMovesOnce(view: View, a: Attempt, v: View)
    requires ReadMoves(view, a, v)
    ensures forall r :: !ReadStops(view, a, r)
    ensures forall v' :: ReadMoves(view, a, v') ==> v' == v
  {
    forall o, o' | ReadIs(view, a, o) && ReadIs(view, a, o') ensures o == o' {
      ReadIsOnce(view, a, o, o');
    }
  }

  lemma ReadStopsOnce(view: View, a: Attempt, r: ReadResult, r': ReadResult)
    requires ReadStops(view, a, r) && ReadStops(view, a, r')
    ensures r == r'
  {
    forall o, o' | ReadIs(view, a, o) && ReadIs(view, a, o') ensures o == o' {
      ReadIsOnce(view, a, o, o');
    }
  }

  lemma {:induction false} ReadPhaseStops(view: View, script: seq<Attempt>, r: ReadResult)
    requires script != [] && ReadStops(view, script[0], r)
    ensures ReadPhase(view, script, r, 1, view)
  {
  }

  lemma {:induction false} ReadPhaseAfter(
      view: View, script: seq<Attempt>, v: View, r: ReadResult, used: nat, final: View)
    requires script != [] && ReadMoves(view, script[0], v) && ReadPhase(v, script[1..], r, used, final)
    ensures ReadPhase(view, script, r, used + 1, final)
  {
  }

  /** The answers determine how a first phase ends, and where. */
  lemma {:induction false} ReadPhaseOnce(
      view: View, script: seq<Attempt>,
      r: ReadResult, used: nat, final: View, r': ReadResult, used': nat, final': View)
    requires ReadPhase(view, script, r, used, final) && ReadPhase(view, script, r', used', final')
    ensures r == r' && used == used' && final == final'
    decreases |script|
  {
    if script != [] {
      if v :| ReadMoves(view, script[0], v) {
        ReadMovesOnce(view, script[0], v);
        ReadPhaseOnce(v, script[1..], r, used - 1, final, r', used' - 1, final');
      } else {
        ReadStopsOnce(view, script[0], r, r');
      }
    }
  }

  /** A first phase fails only if everyone answered its last attempt, too many of them with an
      error, and no strictly larger view was on offer then; it blocks only if the answers ran out. */
  lemma {:induction false} ReadPhaseEnd(view: View, script: seq<Attempt>, r: ReadResult, used: nat, final: View)
    requires ReadPhase(view, script, r, used, final)
    ensures used <= |script| && (used == 0 ==> script == [])
    ensures !r.ReadBlocked? ==> used > 0 && ReadStops(final, script[used - 1], r)
    ensures r.ReadBlocked? ==> used == |script| || (used > 0 && ReadStops(final, script[used - 1], r))
    decreases |script|
  {
    if script != [] && !(used == 1 && final == view && ReadStops(view, script[0], r)) {
      var v :| ReadMoves(view, script[0], v) && ReadPhase(v, script[1..], r, used - 1, final);
      ReadPhaseEnd(v, script[1..], r, used - 1, final);
    }
  }

  /** The attempt in `view` ends with the outcome o. */
  ghost predicate WriteIs(view: View, a: Attempt, o: WriteOutcome) {
    exists k :: WriteEnds(view, |Members(view)|, a.answers, o, k)
  }

  lemma WriteIsOnce(view: View, a: Attempt, o: WriteOutcome, o': WriteOutcome)
    requires WriteIs(view, a, o) && WriteIs(view, a, o')
    ensures o == o'
  {
    var n := |Members(view)|;
    var k :| WriteEnds(view, n, a.answers, o, k);
    var k' :| WriteEnds(view, n, a.answers, o', k');
    WriteEndsOnce(view, n, a.answers, o, k, o', k');
  }

  /** The attempt in `view` makes a second phase start again in `next`. */
  ghost predicate WriteMoves(view: View, a: Attempt, next: View) {
    WriteIs(view, a, Moved(next)) || (WriteIs(view, a, NoQuorum) && GoesOn(view, a, next))
  }

  /** The attempt in `view` is the last one of a second phase that ends with r. */
  ghost predicate WriteStops(view: View, a: Attempt, r: WriteResult) {
    match r
    case Written => WriteIs(view, a, Acknowledged)
    case WriteFailed => WriteIs(view, a, NoQuorum) && forall v :: !GoesOn(view, a, v)
    case WriteBlocked => WriteIs(view, a, Stuck)
  }

  /** A second phase that starts in `view` ends with r, in the view `final`, after `used` attempts. */
  ghost predicate WritePhase(view: View, script: seq<Attempt>, r: WriteResult, used: nat, final: View)
    decreases |script|
  {
    if script == [] then r == WriteBlocked && used == 0 && final == view
    else
      || (used == 1 && final == view && WriteStops(view, script[0], r))
      || (used > 0 && exists v :: WriteMoves(view, script[0], v) && WritePhase(v, script[1..], r, used - 1, final))
  }

  lemma WriteMovesOnce(view: View, a: Attempt, v: View)
    requires WriteMoves(view, a, v)
    ensures forall r :: !WriteStops(view, a, r)
    ensures forall v' :: WriteMoves(view, a, v') ==> v' == v
  {
    forall o, o' | WriteIs(view, a, o) && WriteIs(view, a, o') ensures o == o' {
      WriteIsOnce(view, a, o, o');
    }
  }

  lemma WriteStopsOnce(view: View, a: Attempt, r: WriteResult, r': WriteResult)
    requires WriteStops(view, a, r) && WriteStops(view, a, r')
    ensures r == r'
  {
    forall o, o' | WriteIs(view, a, o) && WriteIs(view, a, o') ensures o == o' {
      WriteIsOnce(view, a, o, o');
    }
  }

  lemma {:induction false} WritePhaseStops(view: View, script: seq<Attempt>, r: WriteResult)
    requires script != [] && WriteStops(view, script[0], r)
    ensures WritePhase(view, script, r, 1, view)
  {
  }

  lemma {:induction false} WritePhaseAfter(
      view: View, script: seq<Attempt>, v: View, r: WriteResult, used: nat, final: View)
    requires script != [] && WriteMoves(view, script[0], v) && WritePhase(v, script[1..], r, used, final)
    ensures WritePhase(view, script, r, used + 1, final)
  {
  }

  /** The answers determine how a second phase ends, and where. */
  lemma {:induction false} WritePhaseOnce(
      view: View, script: seq<Attempt>,
      r: WriteResult, used: nat, final: View, r': WriteResult, used': nat, final': View)
    requires WritePhase(view, script, r, used, final) && WritePhase(view, script, r', used', final')
    ensures r == r' && used == used' && final == final'
    decreases |script|
  {
    if script != [] {
      if v :| WriteMoves(view, script[0], v) {
        WriteMovesOnce(view, script[0], v);
        WritePhaseOnce(v, script[1..], r, used - 1, final, r', used' - 1, final');
      } else {
        WriteStopsOnce(view, script[0], r, r');
      }
    }
  }

  /** A second phase fails only if everyone answered its last attempt, too many of them with an
      error, and no strictly larger view was on offer then; it blocks only if the answers ran out. */
  lemma {:induction false} WritePhaseEnd(view: View, script: seq<Attempt>, r: WriteResult, used: nat, final: View)
    requires WritePhase(view, script, r, used, final)
    ensures used <= |script| && (used == 0 ==> script == [])
    ensures !r.WriteBlocked? ==> used > 0 && WriteStops(final, script[used - 1], r)
    ensures r.WriteBlocked? ==> used == |script| || (used > 0 && WriteStops(final, script[used - 1], r))
    decreases |script|
  {
    if script != [] && !(used == 1 && final == view && WriteStops(view, script[0], r)) {
      var v :| WriteMoves(view, script[0], v) && WritePhase(v, script[1..], r, used - 1, final);
      WritePhaseEnd(v, script[1..], r, used - 1, final);
    }
  }

  /** Some prefix of the answers of an attempt in `view` lets a first phase end with reg. */
  ghost predicate FoundIn(view: View, answers: seq<Answer>, reg: Register, differ: bool) {
    exists k :: 0 <= k <= |answers| && ReadMeans(view, |Members(view)|, answers[..k], Got(reg, differ))
  }

  ghost predicate AcknowledgedIn(view: View, answers: seq<Answer>) {
    exists k :: 0 <= k <= |answers| && WriteMeans(view, |Members(view)|, answers[..k], Acknowledged)
  }

  /** What a caller gets: a value, an error, or nothing ever. */
  datatype OpResult = Ok(value: Value) | Err | Hang

  ghost predicate Sticky(before: bool, r: OpResult, after: bool) {
    (before ==> r == Err) && (after <==> before || r == Err)
  }

  ghost predicate ReadEndedWith(view: View, script: seq<Attempt>, reg: Register, differ: bool) {
    exists k :: 0 <= k < |script| && FoundIn(view, script[k].answers, reg, differ)
  }

  ghost predicate AcknowledgedBy(view: View, script: seq<Attempt>) {
    exists k :: 0 <= k < |script| && AcknowledgedIn(view, script[k].answers)
  }

  /** `written` is what the second phase of the operation broadcasts, for a first phase that
      ended in some view between the two. */
  ghost predicate FirstPhaseChose(kind: Kind, low: View, high: View, script: seq<Attempt>, written: Option<Register>) {
    exists v, reg, differ ::
      && low <= v <= high && FirstIs(low, script, Found(reg, differ), v) && ReadEndedWith(v, script, reg, differ)
      && written == SecondPhase(kind, reg, differ)
  }

  /** A first phase moves only to strictly more updated views, so the views it may be offered
      bound its attempts. */
  lemma {:induction false} ReadPhaseBounds(
      view: View, script: seq<Attempt>, r: ReadResult, used: nat, final: View, u: View)
    requires ReadPhase(view, script, r, used, final)
    ensures used <= |script| && view <= final && used <= |final| - |view| + 1
    ensures OffersWithin(script, u) && view <= u ==> final <= u && used <= |u| - |view| + 1
    ensures r.Found? ==> used > 0 && FoundIn(final, script[used - 1].answers, r.reg, r.differ)
    decreases |script|
  {
    if view <= u { SubsetCardinality(view, u); }
    if script != [] && !(used == 1 && final == view && ReadStops(view, script[0], r)) {
      var v :| ReadMoves(view, script[0], v) && ReadPhase(v, script[1..], r, used - 1, final);
      ReadMovesUp(view, script[0], v);
      assert script[0] in script && (OffersWithin(script, u) ==> OffersWithin(script[1..], u));
      ReadPhaseBounds(v, script[1..], r, used - 1, final, u);
      if final <= u { SubsetCardinality(final, u); }
    }
  }

  lemma ReadMovesUp(view: View, a: Attempt, v: View)
    requires ReadMoves(view, a, v)
    ensures view < v && |view| < |v| && (a.further == Some(v) || OldView(v) in a.answers)
  {
    SubsetCardinality(view, v);
    if !GoesOn(view, a, v) {
      var k :| ReadEnds(view, |Members(view)|, a.answers, Redirected(v), k);
      assert a.answers[k - 1] == OldView(v);
    }
  }

  /** A second phase moves only to strictly more updated views, so the views it may be offered
      bound its attempts. */
  lemma {:induction false} WritePhaseBounds(
      view: View, script: seq<Attempt>, r: WriteResult, used: nat, final: View, u: View)
    requires WritePhase(view, script, r, used, final)
    ensures used <= |script| && view <= final && used <= |final| - |view| + 1
    ensures OffersWithin(script, u) && view <= u ==> final <= u && used <= |u| - |view| + 1
    ensures r.Written? ==> used > 0 && AcknowledgedIn(final, script[used - 1].answers)
    decreases |script|
  {
    if view <= u { SubsetCardinality(view, u); }
    if script != [] && !(used == 1 && final == view && WriteStops(view, script[0], r)) {
      var v :| WriteMoves(view, script[0], v) && WritePhase(v, script[1..], r, used - 1, final);
      WriteMovesUp(view, script[0], v);
      assert script[0] in script && (OffersWithin(script, u) ==> OffersWithin(script[1..], u));
      WritePhaseBounds(v, script[1..], r, used - 1, final, u);
      if final <= u { SubsetCardinality(final, u); }
    }
  }

  lemma WriteMovesUp(view: View, a: Attempt, v: View)
    requires WriteMoves(view, a, v)
    ensures view < v && |view| < |v| && (a.further == Some(v) || OldView(v) in a.answers)
  {
    SubsetCardinality(view, v);
    if !GoesOn(view, a, v) {
      var k :| WriteEnds(view, |Members(view)|, a.answers, Moved(v), k);
      assert a.answers[k - 1] == OldView(v);
    }
  }

  // ----- how a whole operation ends -----

  ghost predicate FirstIs(view: View, first: seq<Attempt>, r: ReadResult, mid: View) {
    exists used :: ReadPhase(view, first, r, used, mid)
  }

  ghost predicate SecondIs(mid: View, second: seq<Attempt>, r: WriteResult, final: View) {
    exists used :: WritePhase(mid, second, r, used, final)
  }

  /** The first phase finds a value that the operation need not write (back). */
  ghost predicate OnePhaseDoes(kind: Kind, view: View, first: seq<Attempt>) {
    exists mid, reg, differ :: FirstIs(view, first, Found(reg, differ), mid) && SecondPhase(kind, reg, differ).None?
  }

  /** The first phase finds a value, and the second phase that it calls for ends with r. */
  ghost predicate SecondAfter(kind: Kind, view: View, first: seq<Attempt>, second: seq<Attempt>, r: WriteResult) {
    exists mid, reg, differ, final ::
      && FirstIs(view, first, Found(reg, differ), mid) && SecondPhase(kind, reg, differ).Some?
      && SecondIs(mid, second, r, final)
  }

  /** The first phase finds a value that the operation has to write (back). */
  ghost predicate NeedsSecond(kind: Kind, view: View, first: seq<Attempt>) {
    exists mid, reg, differ :: FirstIs(view, first, Found(reg, differ), mid) && SecondPhase(kind, reg, differ).Some?
  }

  ghost predicate Fails(kind: Kind, view: View, first: seq<Attempt>, second: seq<Attempt>) {
    (exists mid :: FirstIs(view, first, ReadFailed, mid)) || SecondAfter(kind, view, first, second, WriteFailed)
  }

  ghost predicate Blocks(kind: Kind, view: View, first: seq<Attempt>, second: seq<Attempt>) {
    (exists mid :: FirstIs(view, first, ReadBlocked, mid)) || SecondAfter(kind, view, first, second, WriteBlocked)
  }

  ghost predicate Completes(kind: Kind, view: View, first: seq<Attempt>, second: seq<Attempt>) {
    OnePhaseDoes(kind, view, first) || SecondAfter(kind, view, first, second, Written)
  }

  /** An operation of a client without an error, in `view`, returns an error exactly if one of its
      phases failed, nothing ever exactly if one blocked, and without error exactly otherwise. */
  ghost predicate EndsAs(kind: Kind, view: View, first: seq<Attempt>, second: seq<Attempt>, r: OpResult) {
    && (r == Err <==> Fails(kind, view, first, second))
    && (r == Hang <==> Blocks(kind, view, first, second))
    && (r.Ok? <==> Completes(kind, view, first, second))
  }

  lemma FirstIsOnce(view: View, first: seq<Attempt>, r: ReadResult, mid: View, r': ReadResult, mid': View)
    requires FirstIs(view, first, r, mid) && FirstIs(view, first, r', mid')
    ensures r == r' && mid == mid'
  {
    var used :| ReadPhase(view, first, r, used, mid);
    var used' :| ReadPhase(view, first, r', used', mid');
    ReadPhaseOnce(view, first, r, used, mid, r', used', mid');
  }

  lemma SecondIsOnce(mid: View, second: seq<Attempt>, r: WriteResult, final: View, r': WriteResult, final': View)
    requires SecondIs(mid, second, r, final) && SecondIs(mid, second, r', final')
    ensures r == r' && final == final'
  {
    var used :| WritePhase(mid, second, r, used, final);
    var used' :| WritePhase(mid, second, r', used', final');
    WritePhaseOnce(mid, second, r, used, final, r', used', final');
  }

  lemma SecondAfterOnce(
      kind: Kind, view: View, first: seq<Attempt>, second: seq<Attempt>, r: WriteResult, r': WriteResult)
    requires SecondAfter(kind, view, first, second, r) && SecondAfter(kind, view, first, second, r')
    ensures r == r'
  {
    var mid, reg, differ, final :| FirstIs(view, first, Found(reg, differ), mid) && SecondIs(mid, second, r, final);
    var mid', reg', differ', final' :|
      FirstIs(view, first, Found(reg', differ'), mid') && SecondIs(mid', second, r', final');
    FirstIsOnce(view, first, Found(reg, differ), mid, Found(reg', differ'), mid');
    SecondIsOnce(mid, second, r, final, r', final');
  }

  /** The answers determine which of the three it is. */
  lemma EndsOnlyOnce(kind: Kind, view: View, first: seq<Attempt>, second: seq<Attempt>)
    ensures !(Fails(kind, view, first, second) && Blocks(kind, view, first, second))
    ensures !(Fails(kind, view, first, second) && Completes(kind, view, first, second))
    ensures !(Blocks(kind, view, first, second) && Completes(kind, view, first, second))
  {
    forall r, mid, r', mid' | FirstIs(view, first, r, mid) && FirstIs(view, first, r', mid') ensures r == r' {
      FirstIsOnce(view, first, r, mid, r', mid');
    }
    forall r, r' | SecondAfter(kind, view, first, second, r) && SecondAfter(kind, view, first, second, r')
      ensures r == r'
    {
      SecondAfterOnce(kind, view, first, second, r, r');
    }
  }

  lemma {:induction false} FirstEnded(view: View, first: seq<Attempt>, r: ReadResult, used: nat, mid: View)
    requires ReadPhase(view, first, r, used, mid)
    ensures FirstIs(view, first, r, mid) && view <= mid
    ensures r.Found? ==> ReadEndedWith(mid, first, r.reg, r.differ)
  {
    ReadPhaseBounds(view, first, r, used, mid, {});
  }

  lemma FirstChose(
      kind: Kind, low: View, mid: View, high: View, first: seq<Attempt>, reg: Register, differ: bool)
    requires low <= mid <= high && FirstIs(low, first, Found(reg, differ), mid)
    requires ReadEndedWith(mid, first, reg, differ)
    ensures FirstPhaseChose(kind, low, high, first, SecondPhase(kind, reg, differ))
  {
  }

  /** An operation that ends with its first phase. */
  lemma EndsAfterFirst(
      kind: Kind, view: View, first: seq<Attempt>, second: seq<Attempt>, r: ReadResult, mid: View, result: OpResult)
    requires FirstIs(view, first, r, mid) && (r.Found? ==> SecondPhase(kind, r.reg, r.differ).None?)
    requires match r case Found(_, _) => result.Ok? case ReadFailed => result == Err case ReadBlocked => result == Hang
    ensures EndsAs(kind, view, first, second, result) && !NeedsSecond(kind, view, first)
  {
    forall r', mid' | FirstIs(view, first, r', mid') ensures r == r' {
      FirstIsOnce(view, first, r, mid, r', mid');
    }
    EndsOnlyOnce(kind, view, first, second);
  }

  /** An operation that ends with its second phase. */
  lemma EndsAfterSecond(
      kind: Kind, view: View, first: seq<Attempt>, second: seq<Attempt>, reg: Register, differ: bool, mid: View,
      r: WriteResult, final: View, result: OpResult)
    requires FirstIs(view, first, Found(reg, differ), mid) && SecondPhase(kind, reg, differ).Some?
    requires SecondIs(mid, second, r, final)
    requires match r case Written => result.Ok? case WriteFailed => result == Err case WriteBlocked => result == Hang
    ensures EndsAs(kind, view, first, second, result) && NeedsSecond(kind, view, first)
  {
    assert SecondAfter(kind, view, first, second, r);
    EndsOnlyOnce(kind, view, first, second);
  }

  class FreestoreClient {
    var view: View
    var err: bool
    var secondPhaseReads: nat

    constructor (initialView: View)
      ensures view == initialView && !err && secondPhaseReads == 0
    {
      view, err, secondPhaseReads := initialView, false, 0;
    }

    method CouldGetNewView(further: Option<View>) returns (ok: bool)
      modifies `view
      ensures ok <==> further.Some? && old(view) < further.value
      ensures view == if ok then further.value else old(view)
    {
      match further
      case None => return false;
      case Some(v) =>
        var more := MoreUpdatedThan(v, view);
        if !more { return false; }
        view := v;
        return true;
    }

    /** What it returns, after how many attempts and in which view is what the answers determine. */
    method ReadQuorum(script: seq<Attempt>) returns (r: ReadResult, used: nat)
      modifies `view
      ensures ReadPhase(old(view), script, r, used, view)
      decreases |script|
    {
      var destination := view;
      if |script| == 0 {
        r, used := ReadBlocked, 0;
      } else {
        var outcome, k := ReadAttempt(destination, |Members(destination)|, script[0].answers);
        assert ReadIs(destination, script[0], outcome);
        match outcome {
          case Got(reg, differ) =>
            ReadPhaseStops(destination, script, Found(reg, differ));
            r, used := Found(reg, differ), 1;
          case Redirected(newView) =>
            view := newView;
            assert ReadMoves(destination, script[0], newView);
            r, used := ReadQuorum(script[1..]);
            ReadPhaseAfter(destination, script, newView, r, used, view);
            used := used + 1;
          case AllFailed =>
            var ok := CouldGetNewView(script[0].further);
            if ok {
              ghost var newView := view;
              assert ReadMoves(destination, script[0], newView);
              r, used := ReadQuorum(script[1..]);
              ReadPhaseAfter(destination, script, newView, r, used, view);
              used := used + 1;
            } else {
              ReadPhaseStops(destination, script, ReadFailed);
              r, used := ReadFailed, 1;
            }
          case Blocked =>
            ReadPhaseStops(destination, script, ReadBlocked);
            r, used := ReadBlocked, 1;
        }
      }
    }

    method WriteQuorum(script: seq<Attempt>) returns (r: WriteResult, used: nat)
      modifies `view
      ensures WritePhase(old(view), script, r, used, view)
      decreases |script|
    {
      var destination := view;
      if |script| == 0 {
        r, used := WriteBlocked, 0;
      } else {
        var outcome, k := WriteAttempt(destination, |Members(destination)|, script[0].answers);
        assert WriteIs(destination, script[0], outcome);
        match outcome {
          case Acknowledged =>
            WritePhaseStops(destination, script, Written);
            r, used := Written, 1;
          case Moved(newView) =>
            view := newView;
            assert WriteMoves(destination, script[0], newView);
            r, used := WriteQuorum(script[1..]);
            WritePhaseAfter(destination, script, newView, r, used, view);
            used := used + 1;
          case NoQuorum =>
            var ok := CouldGetNewView(script[0].further);
            if ok {
              ghost var newView := view;
              assert WriteMoves(destination, script[0], newView);
              r, used := WriteQuorum(script[1..]);
              WritePhaseAfter(destination, script, newView, r, used, view);
              used := used + 1;
            } else {
              WritePhaseStops(destination, script, WriteFailed);
              r, used := WriteFailed, 1;
            }
          case Stuck =>
            WritePhaseStops(destination, script, WriteBlocked);
            r, used := WriteBlocked, 1;
        }
      }
    }

    /** The second phase of an operation that returns `value` after it. */
    method SendSecond(value: Value, second: seq<Attempt>) returns (r: OpResult, ghost w: WriteResult)
      requires !err
      modifies `view, `err
      ensures SecondIs(old(view), second, w, view) && old(view) <= view
      ensures r == match w case Written => Ok(value) case WriteFailed => Err case WriteBlocked => Hang
      ensures (err <==> r == Err) && (r.Ok? ==> AcknowledgedBy(view, second))
    {
      var writeResult, used := WriteQuorum(second);
      WritePhaseBounds(old(view), second, writeResult, used, view, {});
      w := writeResult;
      match writeResult
      case Written => return Ok(value), w;
      case WriteFailed =>
        err := true;
        return Err, w;
      case WriteBlocked => return Hang, w;
    }

    /** A Write returns without error only after a quorum acknowledged the timestamp after the
        one its first phase found. Any error is kept, and every later operation returns it. */
    method Write(value: Value, first: seq<Attempt>, second: seq<Attempt>)
      returns (r: OpResult, written: Option<Register>)
      modifies `view, `err
      ensures old(err) ==> r == Err && written == None && view == old(view)
      ensures Sticky(old(err), r, err) && old(view) <= view
      ensures written.Some? ==> FirstPhaseChose(Kind.Write(value), old(view), view, first, written)
      ensures !old(err) ==> EndsAs(Kind.Write(value), old(view), first, second, r)
      ensures !old(err) ==> (written.Some? <==> NeedsSecond(Kind.Write(value), old(view), first))
      ensures r.Ok? ==> written.Some? && AcknowledgedBy(view, second)
    {
      if err { return Err, None; }
      var readResult, used := ReadQuorum(first);
      FirstEnded(old(view), first, readResult, used, view);
      ghost var kind := Kind.Write(value);
      match readResult
      case ReadBlocked =>
        EndsAfterFirst(kind, old(view), first, second, readResult, view, Hang);
        return Hang, None;
      case ReadFailed =>
        EndsAfterFirst(kind, old(view), first, second, readResult, view, Err);
        err := true;
        return Err, None;
      case Found(reg, differ) =>
        written := Some(Register(reg.ts + 1, value));
        ghost var mid := view;
        assert written == SecondPhase(kind, reg, differ);
        ghost var writeResult;
        r, writeResult := SendSecond(Nil, second);
        FirstChose(kind, old(view), mid, view, first, reg, differ);
        EndsAfterSecond(kind, old(view), first, second, reg, differ, mid, writeResult, view, r);
    }

    /** A Read returns the value its first phase found; if the answers differed, only after a
        quorum acknowledged that very value and timestamp. */
    method Read(first: seq<Attempt>, second: seq<Attempt>) returns (r: OpResult, written: Option<Register>)
      modifies this
      ensures old(err) ==> r == Err && written == None && view == old(view)
      ensures Sticky(old(err), r, err) && old(view) <= view
      ensures !old(err) ==> EndsAs(Kind.Read, old(view), first, second, r)
      ensures !old(err) ==> (written.Some? <==> NeedsSecond(Kind.Read, old(view), first))
      ensures secondPhaseReads == old(secondPhaseReads) + if written.Some? then 1 else 0
      ensures r.Ok? || written.Some? ==> FirstPhaseChose(Kind.Read, old(view), view, first, written)
      ensures r.Ok? && written.Some? ==>
                r.value == written.value.value && AcknowledgedBy(view, second)
      ensures r.Ok? && written.None? ==>
                exists reg :: FirstIs(old(view), first, Found(reg, false), view) && r.value == reg.value
    {
      if err { return Err, None; }
      var readResult, used := ReadQuorum(first);
      FirstEnded(old(view), first, readResult, used, view);
      ghost var kind := Kind.Read;
      match readResult
      case ReadBlocked =>
        EndsAfterFirst(kind, old(view), first, second, readResult, view, Hang);
        return Hang, None;
      case ReadFailed =>
        EndsAfterFirst(kind, old(view), first, second, readResult, view, Err);
        err := true;
        return Err, None;
      case Found(reg, differ) =>
        ghost var mid := view;
        if !differ {
          FirstChose(kind, old(view), mid, view, first, reg, differ);
          EndsAfterFirst(kind, old(view), first, second, readResult, view, Ok(reg.value));
          return Ok(reg.value), None;
        }
        secondPhaseReads := secondPhaseReads + 1;
        written := Some(reg);
        ghost var writeResult;
        r, writeResult := SendSecond(reg.value, second);
        FirstChose(kind, old(view), mid, view, first, reg, differ);
        EndsAfterSecond(kind, old(view), first, second, reg, differ, mid, writeResult, view, r);
    }
  }
}
