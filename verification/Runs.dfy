/** Steps of a run that lie in the past. */
module Runs {
  /** The step was taken before state i. */
  ghost predicate Taken<A>(actions: seq<A>, i: nat, a: A)
    requires i <= |actions|
  {
    exists k :: 0 <= k < i && actions[k] == a
  }

  lemma TakenNext<A>(actions: seq<A>, i: nat, a: A)
    requires i < |actions|
    ensures Taken(actions, i + 1, a) <==> Taken(actions, i, a) || actions[i] == a
  {
  }
}
