/**
 Runs of the register system built step by step.
 */
module RegisterRuns {
  import opened RegisterSystem
  import opened Runs

  function Step(w: seq<Installed>): (State, Event, State) -> bool {
    (s: State, e: Event, t: State) => Enabled(w, s, e) && Next(w, s, e) == t
  }

  lemma {:induction false} PathIsRun(w: seq<Installed>, tr: seq<State>, es: seq<Event>)
    requires Chain(w) && CachesExact(w) && Path(Step(w), tr, es) && Init(w, tr[0])
    ensures Run(w, tr, es)
  {
    forall i | 0 <= i < |es|
      ensures Enabled(w, tr[i], es[i]) && tr[i + 1] == Next(w, tr[i], es[i])
    {
      assert Step(w)(tr[i], es[i], tr[i + 1]);
    }
  }
}
