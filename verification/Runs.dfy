/**
 Building runs of a transition system step by step, whatever the system is.
 */
module Runs {

  /** The states tr are joined by the events es. */
  ghost predicate Path<S(!new), E(!new)>(step: (S, E, S) -> bool, tr: seq<S>, es: seq<E>) {
    && |tr| == |es| + 1
    && forall i | 0 <= i < |es| :: step(tr[i], es[i], tr[i + 1])
  }

  ghost predicate Reaches<S(!new), E(!new)>(step: (S, E, S) -> bool, s: S, t: S) {
    exists tr: seq<S>, es: seq<E> :: Path(step, tr, es) && tr[0] == s && tr[|es|] == t
  }

  lemma Stay<S(!new), E(!new)>(step: (S, E, S) -> bool, s: S)
    ensures Reaches(step, s, s)
  {
    var tr, es: seq<E> := [s], [];
    assert Path(step, tr, es) && tr[|es|] == s;
  }

  /** A run goes on with one more step. */
  lemma Go<S(!new), E(!new)>(step: (S, E, S) -> bool, s: S, t: S, e: E, u: S)
    requires Reaches(step, s, t) && step(t, e, u)
    ensures Reaches(step, s, u)
  {
    var tr: seq<S>, es: seq<E> :| Path(step, tr, es) && tr[0] == s && tr[|es|] == t;
    var tr', es' := tr + [u], es + [e];
    forall i | 0 <= i < |es'| ensures step(tr'[i], es'[i], tr'[i + 1]) {
      if i < |es| { assert step(tr[i], es[i], tr[i + 1]); }
    }
    assert Path(step, tr', es');
  }

  lemma Once<S(!new), E(!new)>(step: (S, E, S) -> bool, s: S, e: E, t: S)
    requires step(s, e, t)
    ensures Reaches(step, s, t)
  {
    Stay(step, s);
    Go(step, s, s, e, t);
  }

  lemma Concat<S(!new), E(!new)>(step: (S, E, S) -> bool, s: S, t: S, u: S)
    requires Reaches(step, s, t) && Reaches(step, t, u)
    ensures Reaches(step, s, u)
  {
    var tr: seq<S>, es: seq<E> :| Path(step, tr, es) && tr[0] == s && tr[|es|] == t;
    var tr2: seq<S>, es2: seq<E> :| Path(step, tr2, es2) && tr2[0] == t && tr2[|es2|] == u;
    var tr', es' := tr[..|es|] + tr2, es + es2;
    forall i | 0 <= i < |es'| ensures step(tr'[i], es'[i], tr'[i + 1]) {
      if i < |es| {
        assert step(tr[i], es[i], tr[i + 1]);
      } else {
        assert step(tr2[i - |es|], es2[i - |es|], tr2[i - |es| + 1]);
      }
    }
    assert Path(step, tr', es');
  }

  /** The run behind it. */
  lemma PathOf<S(!new), E(!new)>(step: (S, E, S) -> bool, s: S, t: S) returns (tr: seq<S>, es: seq<E>)
    requires Reaches(step, s, t)
    ensures Path(step, tr, es) && tr[0] == s && tr[|es|] == t
  {
    tr, es :| Path(step, tr, es) && tr[0] == s && tr[|es|] == t;
  }

  /** From any state in which the elements `done` have taken their turn, another one can. */
  ghost predicate Turns<S(!new), E(!new), P(!new)>(step: (S, E, S) -> bool, inv: (S, set<P>) -> bool, ps: set<P>) {
    forall s, done, p {:trigger inv(s, done + {p})} ::
      inv(s, done) && done <= ps && p in ps && p !in done ==> Turn(step, inv, s, done, p)
  }

  ghost predicate Turn<S(!new), E(!new), P(!new)>(step: (S, E, S) -> bool, inv: (S, set<P>) -> bool,
                                                  s: S, done: set<P>, p: P) {
    exists e, t :: step(s, e, t) && inv(t, done + {p})
  }

  /** So all can, one after another. */
  lemma {:induction false} EachInTurn<S(!new), E(!new), P(!new)>(
      step: (S, E, S) -> bool, inv: (S, set<P>) -> bool, s: S, ps: set<P>, done: set<P>) returns (t: S)
    requires inv(s, {}) && Turns(step, inv, ps) && done <= ps
    ensures Reaches(step, s, t) && inv(t, done)
    decreases |done|
  {
    if done == {} {
      t := s;
      Stay(step, s);
    } else {
      var p :| p in done;
      var rest := done - {p};
      var u := EachInTurn(step, inv, s, ps, rest);
      assert rest + {p} == done;
      assert Turn(step, inv, u, rest, p) by { var again := inv(u, rest + {p}); }
      var e, v :| step(u, e, v) && inv(v, rest + {p});
      Go(step, s, u, e, v);
      t := v;
    }
  }
}
