/**
 The three quorum counters of pkg/server: parallel lists of the first message of each content
 and of how many equal ones came. They refine counting in a multiset: `count` answers true
 exactly at the quorum-th equal message, and never again for that content.
 */
module QuorumCounters {
  import opened Views
  import opened ViewSeqs

  datatype Tally<T> = Tally(first: T, count: nat)

  // ----- contents compared by equality: install-seq and seq-conv messages -----

  /** Index of the first tally of x, or the number of tallies. */
  function FirstEqual<T(==)>(ts: seq<Tally<T>>, x: T): (i: nat)
    ensures i <= |ts|
    ensures i < |ts| ==> ts[i].first == x
    ensures forall j | 0 <= j < i :: ts[j].first != x
  {
    if ts == [] then 0 else if ts[0].first == x then 0 else 1 + FirstEqual(ts[1..], x)
  }

  function Count<T(==)>(ts: seq<Tally<T>>, x: T, quorumSize: nat): (seq<Tally<T>>, bool) {
    var i := FirstEqual(ts, x);
    if i < |ts|
    then (ts[i := Tally(ts[i].first, ts[i].count + 1)], ts[i].count + 1 == quorumSize)
    else (ts + [Tally(x, 1)], 1 == quorumSize)
  }

  /** The tallies after counting a sequence of messages, whatever the quorum sizes. */
  function Replay<T(==)>(xs: seq<T>): seq<Tally<T>> {
    if xs == [] then [] else Count(Replay(xs[..|xs| - 1]), xs[|xs| - 1], 0).0
  }

  /** The tallies are the multiset of the messages: one tally per content, with its multiplicity. */
  ghost predicate TalliesOf<T(!new)>(ts: seq<Tally<T>>, xs: seq<T>) {
    && (forall i, j :: 0 <= i < j < |ts| ==> ts[i].first != ts[j].first)
    && (forall i | 0 <= i < |ts| :: ts[i].count == multiset(xs)[ts[i].first] > 0)
    && (forall x | x in xs :: exists i :: 0 <= i < |ts| && ts[i].first == x)
  }

  lemma CountKeepsTallies<T(!new)>(ts: seq<Tally<T>>, xs: seq<T>, x: T, quorumSize: nat)
    requires TalliesOf(ts, xs)
    ensures TalliesOf(Count(ts, x, quorumSize).0, xs + [x])
    ensures Count(ts, x, quorumSize).1 <==> multiset(xs + [x])[x] == quorumSize
  {
    var ts' := Count(ts, x, quorumSize).0;
    assert multiset(xs + [x]) == multiset(xs) + multiset{x};
    var i := FirstEqual(ts, x);
    if i == |ts| {
      assert x !in xs;
      assert ts'[|ts|].first == x;
    }
    forall y | y in xs + [x]
      ensures exists j :: 0 <= j < |ts'| && ts'[j].first == y
    {
      if y == x {
        assert ts'[i].first == x;
      } else {
        var j :| 0 <= j < |ts| && ts[j].first == y;
        assert ts'[j].first == y;
      }
    }
  }

  lemma {:induction false} ReplayTallies<T(!new)>(xs: seq<T>)
    ensures TalliesOf(Replay(xs), xs)
  {
    if xs != [] {
      var n := |xs| - 1;
      ReplayTallies(xs[..n]);
      CountKeepsTallies(Replay(xs[..n]), xs[..n], xs[n], 0);
      assert xs == xs[..n] + [xs[n]];
    }
  }

  /** For any sequence of messages and any call: the counter, holding the tallies of the earlier
      messages, answers true exactly when the message is the quorum-th one of its content. */
  lemma CountAtQuorum<T(!new)>(xs: seq<T>, i: nat, quorumSize: nat)
    requires i < |xs|
    ensures Count(Replay(xs[..i]), xs[i], quorumSize).1 <==> multiset(xs[..i + 1])[xs[i]] == quorumSize
  {
    ReplayTallies(xs[..i]);
    CountKeepsTallies(Replay(xs[..i]), xs[..i], xs[i], quorumSize);
    assert xs[..i + 1] == xs[..i] + [xs[i]];
  }

  lemma {:induction false} OccurrencesGrow<T(!new)>(xs: seq<T>, i: nat, j: nat, x: T)
    requires i <= j <= |xs|
    ensures multiset(xs[..i])[x] <= multiset(xs[..j])[x]
    decreases j - i
  {
    if i < j {
      OccurrencesGrow(xs, i, j - 1, x);
      assert xs[..j] == xs[..j - 1] + [xs[j - 1]];
    }
  }

  /** Two calls with equal messages never both answer true for one quorum size. */
  lemma AtMostOnce<T(!new)>(xs: seq<T>, i: nat, j: nat, quorumSize: nat)
    requires i < j < |xs| && xs[i] == xs[j]
    requires Count(Replay(xs[..i]), xs[i], quorumSize).1
    ensures !Count(Replay(xs[..j]), xs[j], quorumSize).1
  {
    CountAtQuorum(xs, i, quorumSize);
    CountAtQuorum(xs, j, quorumSize);
    OccurrencesGrow(xs, i + 1, j, xs[i]);
    assert xs[..j + 1] == xs[..j] + [xs[j]];
  }

  /** The counter as the source keeps it. */
  class QuorumCounter<T(==)> {
    var list: seq<T>
    var counter: seq<nat>

    ghost predicate Valid()
      reads this
    {
      |list| == |counter|
    }

    ghost function Tallies(): seq<Tally<T>>
      reads this
      requires Valid()
    {
      seq(|list|, i requires 0 <= i < |list| && |list| == |counter| reads this => Tally(list[i], counter[i]))
    }

    constructor ()
      ensures Valid() && Tallies() == []
    {
      list, counter := [], [];
    }

    method CountMessage(x: T, quorumSize: nat) returns (hit: bool)
      requires Valid()
      modifies this
      ensures Valid() && (Tallies(), hit) == Count(old(Tallies()), x, quorumSize)
    {
      ghost var ts := Tallies();
      for i := 0 to |list|
        invariant Valid() && Tallies() == ts && |list| == |ts|
        invariant forall j | 0 <= j < i :: list[j] != x
      {
        if list[i] == x {
          assert ts[i].first == x && FirstEqual(ts, x) == i;
          counter := counter[i := counter[i] + 1];
          assert Tallies() == ts[i := Tally(ts[i].first, ts[i].count + 1)];
          return counter[i] == quorumSize;
        }
      }
      assert FirstEqual(ts, x) == |ts|;
      list := list + [x];
      counter := counter + [1];
      assert Tallies() == ts + [Tally(x, 1)];
      return 1 == quorumSize;
    }
  }

  // ----- the two contents compared position by position -----

  datatype InstallSeq = InstallSeq(associated: View, install: View, views: ViewSeq)

  method SamePositions(a: ViewSeq, b: ViewSeq) returns (same: bool)
    ensures same <==> a == b
  {
    if |a| != |b| { return false; }
    for i := 0 to |a|
      invariant a[..i] == b[..i]
    {
      var eq := Equal(a[i], b[i]);
      if !eq { return false; }
      assert a[..i + 1] == a[..i] + [a[i]] && b[..i + 1] == b[..i] + [b[i]];
    }
    assert a[..|a|] == a && b[..|b|] == b;
    return true;
  }

  /** InstallSeq.Equal is equality of the contents. */
  method InstallSeqEqual(a: InstallSeq, b: InstallSeq) returns (same: bool)
    ensures same <==> a == b
  {
    if |a.views| != |b.views| { return false; }
    var sameInstall := Equal(a.install, b.install);
    if sameInstall {
      var sameAssociated := Equal(a.associated, b.associated);
      if sameAssociated {
        same := SamePositions(a.views, b.views);
        return;
      }
    }
    return false;
  }

  // ----- ViewSeqMsgs: equal contents from different senders -----

  /** A ViewSeqMsg; the associated view is the same for all messages of one generator. */
  datatype Msg = Msg(sender: Process, proposed: ViewSeq, converged: ViewSeq)

  predicate SameButDifferentSender(a: Msg, b: Msg) {
    a.sender != b.sender && SeqEqual(a.proposed, b.proposed) && SeqEqual(a.converged, b.converged)
  }

  method CompareMessages(associated: View, a: Msg, associated': View, b: Msg) returns (same: bool)
    ensures same <==> associated == associated' && SameButDifferentSender(a, b)
  {
    if a.sender == b.sender { return false; }
    var eq := Equal(associated, associated');
    if !eq { return false; }
    eq := SequencesEqual(a.proposed, b.proposed);
    if !eq { return false; }
    eq := SequencesEqual(a.converged, b.converged);
    return eq;
  }

  function FirstMatch(ts: seq<Tally<Msg>>, msg: Msg): (i: nat)
    ensures i <= |ts|
    ensures i < |ts| ==> SameButDifferentSender(ts[i].first, msg)
    ensures forall j | 0 <= j < i :: !SameButDifferentSender(ts[j].first, msg)
  {
    if ts == [] then 0 else if SameButDifferentSender(ts[0].first, msg) then 0 else 1 + FirstMatch(ts[1..], msg)
  }

  function CountMsg(ts: seq<Tally<Msg>>, msg: Msg, quorumSize: nat): (seq<Tally<Msg>>, bool) {
    var i := FirstMatch(ts, msg);
    if i < |ts|
    then (ts[i := Tally(ts[i].first, ts[i].count + 1)], ts[i].count + 1 == quorumSize)
    else (ts + [Tally(msg, 1)], 1 == quorumSize)
  }

  /** What a message proposes, with the order of views forgotten. */
  function Content(msg: Msg): (set<View>, set<View>) {
    (AsSet(msg.proposed), AsSet(msg.converged))
  }

  ghost predicate ProperMsg(msg: Msg) {
    Distinct(msg.proposed) && Distinct(msg.converged)
  }

  /** For duplicate-free sequences, counting together is equality of contents. */
  lemma MatchMeaning(a: Msg, b: Msg)
    requires ProperMsg(a) && ProperMsg(b)
    ensures SameButDifferentSender(a, b) <==> a.sender != b.sender && Content(a) == Content(b)
  {
    EqualIsSameViews(a.proposed, b.proposed);
    EqualIsSameViews(a.converged, b.converged);
  }

  function Contents(msgs: seq<Msg>): seq<(set<View>, set<View>)> {
    seq(|msgs|, i requires 0 <= i < |msgs| => Content(msgs[i]))
  }

  /** No sender sends one content twice. */
  ghost predicate NoRepeats(msgs: seq<Msg>) {
    forall i, j :: 0 <= i < j < |msgs| && msgs[i].sender == msgs[j].sender ==> Content(msgs[i]) != Content(msgs[j])
  }

  function ContentTallies(ts: seq<Tally<Msg>>): seq<Tally<(set<View>, set<View>)>> {
    seq(|ts|, i requires 0 <= i < |ts| => Tally(Content(ts[i].first), ts[i].count))
  }

  /** If every stored message with the content of msg has another sender, the message counter
      does to contents what the plain counter does. */
  lemma CountMsgByContent(ts: seq<Tally<Msg>>, msg: Msg, quorumSize: nat)
    requires ProperMsg(msg) && forall i | 0 <= i < |ts| :: ProperMsg(ts[i].first)
    requires forall i | 0 <= i < |ts| && Content(ts[i].first) == Content(msg) :: ts[i].first.sender != msg.sender
    ensures ContentTallies(CountMsg(ts, msg, quorumSize).0) == Count(ContentTallies(ts), Content(msg), quorumSize).0
    ensures CountMsg(ts, msg, quorumSize).1 == Count(ContentTallies(ts), Content(msg), quorumSize).1
  {
    var cs := ContentTallies(ts);
    var i, c := FirstMatch(ts, msg), FirstEqual(cs, Content(msg));
    forall j | 0 <= j < |ts|
      ensures SameButDifferentSender(ts[j].first, msg) <==> cs[j].first == Content(msg)
    {
      MatchMeaning(ts[j].first, msg);
    }
    assert i == c;
  }

  function ReplayMsgs(msgs: seq<Msg>): (ts: seq<Tally<Msg>>)
    ensures forall i | 0 <= i < |ts| :: ts[i].first in msgs
  {
    if msgs == [] then []
    else
      var n := |msgs| - 1;
      assert forall x | x in msgs[..n] :: x in msgs;
      CountMsg(ReplayMsgs(msgs[..n]), msgs[n], 0).0
  }

  lemma {:induction false} ReplaysUnfold(rest: seq<Msg>, last: Msg)
    ensures ReplayMsgs(rest + [last]) == CountMsg(ReplayMsgs(rest), last, 0).0
    ensures Replay(Contents(rest + [last])) == Count(Replay(Contents(rest)), Content(last), 0).0
  {
    var msgs := rest + [last];
    assert msgs[..|rest|] == rest;
    var cs := Contents(rest) + [Content(last)];
    assert cs[..|rest|] == Contents(rest);
    ContentsSplit(rest, last);
  }

  lemma {:induction false} ReplayByContent(msgs: seq<Msg>)
    requires NoRepeats(msgs) && forall x | x in msgs :: ProperMsg(x)
    ensures ContentTallies(ReplayMsgs(msgs)) == Replay(Contents(msgs))
  {
    if msgs == [] {
      assert Contents(msgs) == [];
    } else {
      var n := |msgs| - 1;
      SendersDiffer(msgs, n);
      var rest, last := msgs[..n], msgs[n];
      assert msgs == rest + [last];
      SenderIsNew(rest, last);
      ReplayByContent(rest);
      CountMsgByContent(ReplayMsgs(rest), last, 0);
      ReplaysUnfold(rest, last);
    }
  }

  lemma SendersDiffer(msgs: seq<Msg>, n: nat)
    requires n < |msgs| && NoRepeats(msgs) && forall x | x in msgs :: ProperMsg(x)
    ensures var ts := ReplayMsgs(msgs[..n]);
            forall i | 0 <= i < |ts| ::
              && ProperMsg(ts[i].first)
              && (Content(ts[i].first) == Content(msgs[n]) ==> ts[i].first.sender != msgs[n].sender)
  {
    var ts := ReplayMsgs(msgs[..n]);
    forall i | 0 <= i < |ts|
      ensures ProperMsg(ts[i].first)
      ensures Content(ts[i].first) == Content(msgs[n]) ==> ts[i].first.sender != msgs[n].sender
    {
      var j :| 0 <= j < n && msgs[j] == ts[i].first;
      assert msgs[j] in msgs;
    }
  }

  /** For any sequence of messages in which no sender repeats a content: the counter answers true
      exactly when the message is the quorum-th one of its content. */
  lemma CountMsgAtQuorum(msgs: seq<Msg>, i: nat, quorumSize: nat)
    requires i < |msgs| && NoRepeats(msgs) && forall x | x in msgs :: ProperMsg(x)
    ensures CountMsg(ReplayMsgs(msgs[..i]), msgs[i], quorumSize).1
            <==> multiset(Contents(msgs)[..i + 1])[Content(msgs[i])] == quorumSize
  {
    ReplayByContent(msgs[..i]);
    SendersDiffer(msgs, i);
    CountMsgByContent(ReplayMsgs(msgs[..i]), msgs[i], quorumSize);
    assert Contents(msgs)[..i] == Contents(msgs[..i]);
    CountAtQuorum(Contents(msgs), i, quorumSize);
  }

  function Senders(msgs: seq<Msg>, c: (set<View>, set<View>)): set<Process> {
    set i | 0 <= i < |msgs| && Content(msgs[i]) == c :: msgs[i].sender
  }

  lemma SendersSplit(rest: seq<Msg>, last: Msg, c: (set<View>, set<View>))
    ensures Senders(rest + [last], c) == Senders(rest, c) + (if Content(last) == c then {last.sender} else {})
  {
    var msgs := rest + [last];
    forall p | p in Senders(rest, c)
      ensures p in Senders(msgs, c)
    {
      var i :| 0 <= i < |rest| && Content(rest[i]) == c && rest[i].sender == p;
      assert msgs[i] == rest[i];
    }
    if Content(last) == c { assert msgs[|rest|].sender in Senders(msgs, c); }
    forall p | p in Senders(msgs, c)
      ensures p in Senders(rest, c) || (Content(last) == c && p == last.sender)
    {
      var i :| 0 <= i < |msgs| && Content(msgs[i]) == c && msgs[i].sender == p;
      if i < |rest| { assert rest[i] == msgs[i]; }
    }
  }

  lemma SenderIsNew(rest: seq<Msg>, last: Msg)
    requires NoRepeats(rest + [last])
    ensures last.sender !in Senders(rest, Content(last)) && NoRepeats(rest)
  {
    var msgs := rest + [last];
    forall i | 0 <= i < |rest| && Content(rest[i]) == Content(last)
      ensures rest[i].sender != last.sender
    {
      assert msgs[i] == rest[i] && msgs[|rest|] == last;
    }
    forall i, j | 0 <= i < j < |rest| && rest[i].sender == rest[j].sender
      ensures Content(rest[i]) != Content(rest[j])
    {
      assert msgs[i] == rest[i] && msgs[j] == rest[j];
    }
  }

  /** Without repeats, messages of one content are as many as their senders. */
  lemma {:induction false} SendersCounted(msgs: seq<Msg>, c: (set<View>, set<View>))
    requires NoRepeats(msgs)
    ensures |Senders(msgs, c)| == multiset(Contents(msgs))[c]
  {
    if msgs == [] {
      assert Senders(msgs, c) == {};
      assert Contents(msgs) == [];
    } else {
      var rest, last := msgs[..|msgs| - 1], msgs[|msgs| - 1];
      assert msgs == rest + [last];
      SenderIsNew(rest, last);
      SendersCounted(rest, c);
      SendersSplit(rest, last, c);
      ContentsSplit(rest, last);
    }
  }

  lemma ContentsSplit(rest: seq<Msg>, last: Msg)
    ensures Contents(rest + [last]) == Contents(rest) + [Content(last)]
  {
  }

  /** Without the hypothesis the counter can reach a quorum of three with two senders only. */
  lemma RepeatsAreCounted(p: Process, q: Process, views: ViewSeq)
    requires p != q
    ensures var a, b := Msg(p, views, []), Msg(q, views, []);
            var t1 := CountMsg([], a, 3).0;
            var t2 := CountMsg(t1, b, 3).0;
            CountMsg(t2, b, 3).1
  {
    var a, b := Msg(p, views, []), Msg(q, views, []);
    var t1 := CountMsg([], a, 3).0;
    assert t1 == [Tally(a, 1)];
    var t2 := CountMsg(t1, b, 3).0;
    assert SameButDifferentSender(a, b);
    assert t2 == [Tally(a, 2)];
  }

  /** The message counter as the source keeps it. */
  class MsgCounter {
    var list: seq<Msg>
    var counter: seq<nat>

    ghost predicate Valid()
      reads this
    {
      |list| == |counter|
    }

    ghost function Tallies(): seq<Tally<Msg>>
      reads this
      requires Valid()
    {
      seq(|list|, i requires 0 <= i < |list| && |list| == |counter| reads this => Tally(list[i], counter[i]))
    }

    constructor ()
      ensures Valid() && Tallies() == []
    {
      list, counter := [], [];
    }

    method CountMessage(associated: View, msg: Msg, quorumSize: nat) returns (hit: bool)
      requires Valid()
      modifies this
      ensures Valid() && (Tallies(), hit) == CountMsg(old(Tallies()), msg, quorumSize)
    {
      ghost var ts := Tallies();
      for i := 0 to |list|
        invariant Valid() && Tallies() == ts && |list| == |ts|
        invariant forall j | 0 <= j < i :: !SameButDifferentSender(ts[j].first, msg)
      {
        var same := CompareMessages(associated, list[i], associated, msg);
        assert ts[i].first == list[i];
        if same {
          assert FirstMatch(ts, msg) == i;
          counter := counter[i := counter[i] + 1];
          assert Tallies() == ts[i := Tally(ts[i].first, ts[i].count + 1)];
          return counter[i] == quorumSize;
        }
      }
      assert FirstMatch(ts, msg) == |ts|;
      list := list + [msg];
      counter := counter + [1];
      assert Tallies() == ts + [Tally(msg, 1)];
      return 1 == quorumSize;
    }
  }
}
