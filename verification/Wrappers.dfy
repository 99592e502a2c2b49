/** The optional value and the run of steps used throughout the model. */
module Wrappers {
  datatype Option<+T> = None | Some(value: T) {
    function GetOr(default: T): T {
      match this
      case Some(v) => v
      case None => default
    }
  }

  function Min(a: int, b: int): int { if a < b then a else b }

  function Max(a: int, b: int): int { if a < b then b else a }

  /** A run of steps, the first one first. */
  function Fold<S, A>(step: (S, A) -> S, s: S, actions: seq<A>): S {
    if actions == [] then s
    else step(Fold(step, s, actions[..|actions| - 1]), actions[|actions| - 1])
  }

  lemma FoldOne<S, A>(step: (S, A) -> S, s: S, past: seq<A>, a: A)
    ensures Fold(step, s, past + [a]) == step(Fold(step, s, past), a)
  {
    assert (past + [a])[..|past|] == past;
  }

  lemma {:induction false} FoldConcat<S, A>(step: (S, A) -> S, s: S, past: seq<A>, rest: seq<A>)
    ensures Fold(step, s, past + rest) == Fold(step, Fold(step, s, past), rest)
  {
    if rest == [] {
      assert past + rest == past;
    } else {
      var n := |rest| - 1;
      FoldConcat(step, s, past, rest[..n]);
      FoldOne(step, s, past + rest[..n], rest[n]);
      assert past + rest == (past + rest[..n]) + [rest[n]];
    }
  }

  /** The first place where a test holds, or the length. */
  function First<T>(xs: seq<T>, test: T -> bool): (i: nat)
    ensures i <= |xs|
    ensures i < |xs| ==> test(xs[i])
    ensures forall j | 0 <= j < i :: !test(xs[j])
  {
    if xs == [] || test(xs[0]) then 0
    else
      var rest := First(xs[1..], test);
      assert forall j | 0 < j < 1 + rest :: xs[j] == xs[1..][j - 1];
      1 + rest
  }

  /** A run: each state is linked to the next by an action. */
  predicate Chained<S, A>(link: (S, A, S) -> bool, states: seq<S>, actions: seq<A>) {
    && |states| == |actions| + 1
    && forall k {:trigger actions[k]} | 0 <= k < |actions| :: link(states[k], actions[k], states[k + 1])
  }

  /** What every link keeps holds along a run. */
  lemma {:induction false} ChainKeeps<S(!new), A(!new)>(link: (S, A, S) -> bool, kept: S -> bool,
                                                       states: seq<S>, actions: seq<A>, k: nat)
    requires Chained(link, states, actions) && kept(states[0]) && k <= |actions|
    requires forall s, a, s' :: link(s, a, s') && kept(s) ==> kept(s')
    ensures kept(states[k])
  {
    if k != 0 {
      ChainKeeps(link, kept, states, actions, k - 1);
      var a := actions[k - 1];
      assert link(states[k - 1], a, states[k]);
    }
  }

  /** Some run leads from the one state to the other. */
  ghost predicate Reaches<S(!new), A(!new)>(link: (S, A, S) -> bool, s: S, s': S) {
    exists states: seq<S>, actions: seq<A> ::
      Chained(link, states, actions) && states[0] == s && states[|actions|] == s'
  }

  lemma ReachKeeps<S(!new), A(!new)>(link: (S, A, S) -> bool, kept: S -> bool, s: S, s': S)
    requires Reaches(link, s, s') && kept(s)
    requires forall x, a, y :: link(x, a, y) && kept(x) ==> kept(y)
    ensures kept(s')
  {
    var states, actions :| Chained(link, states, actions) && states[0] == s && states[|actions|] == s';
    ChainKeeps(link, kept, states, actions, |actions|);
  }

  lemma ReachSelf<S(!new), A(!new)>(link: (S, A, S) -> bool, s: S)
    ensures Reaches(link, s, s)
  {
    assert Chained(link, [s], []);
  }

  lemma ReachMore<S(!new), A(!new)>(link: (S, A, S) -> bool, s: S, s': S, a: A, s'': S)
    requires Reaches(link, s, s') && link(s', a, s'')
    ensures Reaches(link, s, s'')
  {
    var states, actions :| Chained(link, states, actions) && states[0] == s && states[|actions|] == s';
    var states', actions' := states + [s''], actions + [a];
    assert states'[0] == states[0];
    forall k | 0 <= k < |actions'| ensures link(states'[k], actions'[k], states'[k + 1]) {
      if k < |actions| {
        assert actions'[k] == actions[k];
      } else {
        assert states'[k] == states[k];
      }
    }
    assert Chained(link, states', actions');
  }
}
