/** A sequence whose elements answer, in order, those of another that are not left out. */
module Selections {

  ghost predicate IsIncreasing(places: seq<nat>) { forall a, b :: 0 <= a < b < |places| ==> places[a] < places[b] }

  /** `ys` has one element for each of `xs` that is not left out, in their order;
      the `k`-th answers the one at `places[k]`. */
  ghost predicate IsSelection<A(!new), B(!new)>(xs: seq<A>, ys: seq<B>, places: seq<nat>, leaves: A -> bool, answers: (A, B) -> bool) {
    && |places| == |ys| && IsIncreasing(places)
    && (forall k :: 0 <= k < |places| ==> places[k] < |xs| && !leaves(xs[places[k]]) && answers(xs[places[k]], ys[k]))
    && (forall i :: 0 <= i < |xs| ==> leaves(xs[i]) || i in places)
  }

  lemma {:induction false} NothingSelected<A(!new), B(!new)>(leaves: A -> bool, answers: (A, B) -> bool)
    ensures IsSelection([], [], [], leaves, answers)
  {
  }

  /** One more element, left out or answered. */
  lemma {:induction false} SelectNext<A(!new), B(!new)>(xs: seq<A>, ys: seq<B>, places: seq<nat>, x: A, more: seq<B>,
                                          leaves: A -> bool, answers: (A, B) -> bool)
    returns (places': seq<nat>)
    requires IsSelection(xs, ys, places, leaves, answers)
    requires if leaves(x) then more == [] else |more| == 1 && answers(x, more[0])
    ensures IsSelection(xs + [x], ys + more, places', leaves, answers)
    ensures places' == places + if leaves(x) then [] else [|xs|]
  {
    if leaves(x) {
      places' := places;
      assert ys + more == ys;
    } else {
      places' := places + [|xs|];
      assert places'[|places|] == |xs|;
      assert forall i :: 0 <= i < |xs| && i in places ==> i in places';
    }
    var all := xs + [x];
    assert forall i :: 0 <= i < |xs| ==> all[i] == xs[i];
  }
}
