/**
 The server object against the register system: every answer and every change of state of the
 object is one the corresponding step of the transition system makes, for any place of the
 server in the chain of installed views.
 */
module ServerRefinement {
  import opened Views
  import opened QuorumCounters
  import opened Server
  import Client
  import N = Reconfiguration
  import R = RegisterSystem
  import RegisterInvariants

  /** Node n is server p of the register system, in the view the chain has at its index. */
  ghost predicate Represents(w: seq<R.Installed>, s: R.State, p: Process, n: N.Node) {
    && p in s.servers && s.servers[p].cur < |w|
    && n.view == w[s.servers[p].cur].entries && n.reg == s.servers[p].reg && n.recv == s.servers[p].recv
  }

  /** The server is not in the middle of an install: it has not sent its state, and it serves
      only as a member. */
  ghost predicate AtRest(w: seq<R.Installed>, s: R.State, p: Process, n: N.Node) {
    && R.Chain(w) && R.CachesExact(w) && Represents(w, s, p, n) && !R.Moving(s, p)
    && N.ServesAsMember(p, n)
  }

  lemma SameViewSameIndex(w: seq<R.Installed>, i: nat, j: nat)
    requires R.Chain(w) && i < |w| && j < |w| && w[i].entries == w[j].entries
    ensures i == j
  {
  }

  /** A server that answers or applies a request in view b serves b. */
  lemma AnsweringMeansServing(w: seq<R.Installed>, s: R.State, p: Process, n: N.Node, b: nat)
    requires AtRest(w, s, p, n) && b < |w|
    ensures OnRead(n, w[b].entries).Content? ==> R.Serves(w, s, p, b)
    ensures OnRead(n, w[b].entries).Old? ==>
              s.servers[p].cur != b && OnRead(n, w[b].entries).view == w[s.servers[p].cur].entries
  {
    if OnRead(n, w[b].entries).Content? {
      SameViewSameIndex(w, s.servers[p].cur, b);
      RegisterInvariants.CacheAt(w, b);
    }
  }

  /** What the Read handler answers to operation k is what ServeRead records; the server stays. */
  lemma ReadIsServed(w: seq<R.Installed>, s: R.State, p: Process, n: N.Node, k: nat)
    requires AtRest(w, s, p, n) && k < |s.ops| && s.ops[k].status.Reading? && s.ops[k].status.view < |w|
    requires p !in s.ops[k].status.answers
    ensures var reply := OnRead(n, w[s.ops[k].status.view].entries);
            reply.Content? ==>
              && R.Enabled(w, s, R.ServeRead(k, p))
              && var s' := R.Next(w, s, R.ServeRead(k, p));
                 && s'.ops[k].status.answers == s.ops[k].status.answers[p := reply.reg]
                 && AtRest(w, s', p, n)
  {
    AnsweringMeansServing(w, s, p, n, s.ops[k].status.view);
  }

  /** What the Write handler does to the server is what ServeWrite does to it, and the
      acknowledgement is counted if the operation still waits in that view. */
  lemma WriteIsServed(w: seq<R.Installed>, s: R.State, p: Process, n: N.Node, k: nat, b: nat)
    requires AtRest(w, s, p, n) && k < |s.ops| && (k, b) in s.wire && s.ops[k].choice.Chosen? && b < |w|
    ensures var (n', reply) := OnWrite(n, w[b].entries, s.ops[k].choice.reg);
            if reply.Ack? then
              && R.Enabled(w, s, R.ServeWrite(k, b, p))
              && var s' := R.Next(w, s, R.ServeWrite(k, b, p));
                 && AtRest(w, s', p, n')
                 && (R.InView(s.ops[k], b) && s.ops[k].status.Writing? ==> p in s'.ops[k].status.acks)
            else n' == n
  {
    AnsweringMeansServing(w, s, p, n, b);
  }

  /** A running server with its register unlocked answers every request: in the view it serves with
      its content or an acknowledgement, and in any other view with the view it has. A client in an
      older view takes that answer for a newer one, and may move there. */
  lemma RequestsAreAnswered(w: seq<R.Installed>, s: R.State, p: Process, n: N.Node, b: nat, msg: R.Register)
    requires AtRest(w, s, p, n) && n.status == N.Running && !n.locked && b < |w|
    ensures OnRead(n, w[b].entries).Content? <==> R.Serves(w, s, p, b)
    ensures OnWrite(n, w[b].entries, msg).1.Ack? <==> R.Serves(w, s, p, b)
    ensures var cur := s.servers[p].cur;
            !R.Serves(w, s, p, b) ==>
              && OnRead(n, w[b].entries) == Old(w[cur].entries)
              && OnWrite(n, w[b].entries, msg) == (n, Old(w[cur].entries))
              && (b < cur ==> Client.Newer(Client.OldView(w[cur].entries), w[b].entries))
              && forall k | 0 <= k < |s.ops| && R.InView(s.ops[k], b) && b < cur ::
                   R.Enabled(w, s, R.ChangeView(k, cur))
  {
    AnsweringMeansServing(w, s, p, n, b);
  }

  /** A Reconfig request is acknowledged exactly if it names the server's view; otherwise it changes
      nothing. */
  lemma OtherViewsAreRefused(w: seq<R.Installed>, s: R.State, p: Process, n: N.Node, b: nat, u: Update)
    requires AtRest(w, s, p, n) && b < |w|
    ensures var (n', ok) := N.OnReconfig(n, w[b].entries, u); (ok <==> b == s.servers[p].cur) && (!ok ==> n' == n)
  {
    if w[b].entries == n.view { SameViewSameIndex(w, s.servers[p].cur, b); }
  }

  /** A Reconfig request the handler acknowledges is a Reconfig step. */
  lemma ReconfigIsServed(w: seq<R.Installed>, s: R.State, p: Process, n: N.Node, u: Update)
    requires AtRest(w, s, p, n)
    ensures var (n', ok) := N.OnReconfig(n, n.view, u);
            && ok && R.Enabled(w, s, R.Reconfig(p, u)) && AtRest(w, R.Next(w, s, R.Reconfig(p, u)), p, n')
            && (p, s.servers[p].cur, u) in R.Next(w, s, R.Reconfig(p, u)).acked
  {
  }

  /** The state a member broadcasts when it handles the install sequence of its view is the message
      of a SendState step; the server stays. */
  lemma StateIsSent(w: seq<R.Installed>, s: R.State, p: Process, n: N.Node)
    requires AtRest(w, s, p, n) && s.servers[p].cur + 1 < |w| && p in Members(n.view)
    ensures R.Enabled(w, s, R.SendState(p))
    ensures var s' := R.Next(w, s, R.SendState(p));
            && Represents(w, s', p, n) && R.Moving(s', p)
            && s'.sent[(p, s.servers[p].cur)] == R.StateMsg(n.reg, n.recv, s.clock)
  {
    RegisterInvariants.CacheAt(w, s.servers[p].cur);
  }

  /** While it waits for the others nothing but the install changes it. */
  lemma MovingServerStays(w: seq<R.Installed>, s: R.State, p: Process, n: N.Node, e: R.Event)
    requires Represents(w, s, p, n) && R.Moving(s, p) && R.Enabled(w, s, e) && !(e.Install? && e.p == p)
    ensures Represents(w, R.Next(w, s, e), p, n) && R.Moving(R.Next(w, s, e), p)
  {
  }

  function MessagesOf(order: seq<Process>, step: nat, sent: map<(Process, nat), R.StateMsg>): seq<StateMsg>
    requires R.AllSent(order, step, sent)
  {
    seq(|order|, i requires 0 <= i < |order| => sent[(order[i], step)])
  }

  lemma InstallStep(w: seq<R.Installed>, s: R.State, p: Process, i: nat, order: seq<Process>)
    requires R.Enabled(w, s, R.Install(p, i, order))
    ensures var merged := MergeOf(MessagesOf(order, i, s.sent));
            var s' := R.Next(w, s, R.Install(p, i, order));
            && p in s'.servers
            && s'.servers[p] == R.Server(i + 1, merged.reg, s.servers[p].recv + merged.recv - w[i + 1].entries)
  {
    MergeIsInstalled(order, i, s.sent);
  }

  /** What gotInstallSeqQuorum makes of the server, with the merge of the messages it got, is what
      the Install step makes of it. */
  lemma {:induction false} InstallIsServed(w: seq<R.Installed>, s: R.State, p: Process, n: N.Node,
                        i: nat, order: seq<Process>, views: ViewSeq)
    requires R.Chain(w) && R.CachesExact(w) && Represents(w, s, p, n) && n.status == N.Running
    requires R.Enabled(w, s, R.Install(p, i, order))
    ensures var inst := InstallSeq(w[i].entries, w[i + 1].entries, views);
            var n' := N.OnInstall(p, n, inst, MergeOf(MessagesOf(order, i, s.sent))).0;
            if N.Locking(p, n, inst).status == N.Running
            then Represents(w, R.Next(w, s, R.Install(p, i, order)), p, n') && p in Members(n'.view)
            else n' == n.(status := N.Deadlocked)
  {
    var inst := InstallSeq(w[i].entries, w[i + 1].entries, views);
    InstallStep(w, s, p, i, order);
    RegisterInvariants.CacheAt(w, i + 1);
    assert n.view < inst.install;
    N.InstalledNode(p, n, inst, MergeOf(MessagesOf(order, i, s.sent)));
  }
}
