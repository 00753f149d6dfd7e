/**
 Transition systems whose nondeterminism is carried by events, their runs, and the two facts about runs that
 everything else uses: runs compose, and what every step keeps holds at the end.
 */
module Machines {

  /** `may(s, e)` says that `e` can happen in `s`; `next(s, e)` is the state it then leads to. */
  datatype Machine<!S(!new), !E(!new)> = Machine(may: (S, E) -> bool, next: (S, E) -> S)

  /** The events `es`, one after the other, lead from `s` to `t`. */
  ghost predicate Runs<S(!new), E(!new)>(m: Machine<S, E>, s: S, es: seq<E>, t: S)
    decreases |es|
  {
    if es == [] then s == t
    else m.may(s, es[0]) && Runs(m, m.next(s, es[0]), es[1..], t)
  }

  lemma {:induction false} RunsAppend<S(!new), E(!new)>(
      m: Machine<S, E>, s: S, es: seq<E>, t: S, fs: seq<E>, u: S)
    requires Runs(m, s, es, t) && Runs(m, t, fs, u)
    ensures Runs(m, s, es + fs, u)
    decreases |es|
  {
    if es == [] {
      assert es + fs == fs;
    } else {
      RunsAppend(m, m.next(s, es[0]), es[1..], t, fs, u);
      assert (es + fs)[1..] == es[1..] + fs;
    }
  }

  lemma Extend<S(!new), E(!new)>(m: Machine<S, E>, s: S, es: seq<E>, t: S, e: E)
    requires Runs(m, s, es, t) && m.may(t, e)
    ensures Runs(m, s, es + [e], m.next(t, e))
  {
    assert Runs(m, m.next(t, e), [e][1..], m.next(t, e));
    RunsAppend(m, s, es, t, [e], m.next(t, e));
  }

  ghost predicate Keeps<S(!new), E(!new)>(m: Machine<S, E>, inv: S -> bool) {
    forall s, e :: inv(s) && m.may(s, e) ==> inv(m.next(s, e))
  }

  lemma {:induction false} Induction<S(!new), E(!new)>(
      m: Machine<S, E>, inv: S -> bool, s: S, es: seq<E>, t: S)
    requires Keeps(m, inv) && inv(s) && Runs(m, s, es, t)
    ensures inv(t)
    decreases |es|
  {
    if es != [] {
      Induction(m, inv, m.next(s, es[0]), es[1..], t);
    }
  }

  /** A run stays a run when fewer demands are made on its steps. */
  lemma {:induction false} Weaken<S(!new), E(!new)>(
      strict: Machine<S, E>, lax: Machine<S, E>, s: S, es: seq<E>, t: S)
    requires strict.next == lax.next && forall s, e :: strict.may(s, e) ==> lax.may(s, e)
    requires Runs(strict, s, es, t)
    ensures Runs(lax, s, es, t)
    decreases |es|
  {
    if es != [] {
      Weaken(strict, lax, strict.next(s, es[0]), es[1..], t);
    }
  }
}
