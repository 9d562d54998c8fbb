/** What the state machines share: a run is a sequence of steps, and may go on with the steps of one owner. */
module Runs {
  /** `all` goes on from `run` with steps of `own` only. */
  ghost predicate Continues<T>(run: seq<T>, all: seq<T>, own: T -> bool) {
    |run| <= |all| && all[..|run|] == run && forall i | |run| <= i < |all| :: own(all[i])
  }

  lemma Continued<T>(run: seq<T>, more: seq<T>, all: seq<T>, own: T -> bool)
    requires Continues(run, more, own) && Continues(more, all, own)
    ensures Continues(run, all, own)
  {
    assert all[..|run|] == all[..|more|][..|run|];
    forall i | |run| <= i < |more| ensures all[i] == more[i] {
      assert all[i] == all[..|more|][i];
    }
  }

  lemma Overwrite<K, V>(m: map<K, V>, k: K, x: V, y: V)
    ensures m[k := x][k := y] == m[k := y]
  {
  }
}
