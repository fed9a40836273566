/** The states that a run passes through, and properties that some steps make and others end. */
module Traces {
  import opened Keys
  import opened CacheSystem

  /** The state after the first i actions. */
  ghost function StateAt(s: State, actions: seq<Action>, i: nat, U: iset<Package>): State
    requires IsRun(s, actions, U) && i <= |actions|
    decreases i
  {
    if i == 0 then s else StateAt(Apply(s, actions[0]), actions[1..], i - 1, U)
  }

  lemma {:induction false} StateAtEnd(s: State, actions: seq<Action>, U: iset<Package>)
    requires IsRun(s, actions, U)
    ensures StateAt(s, actions, |actions|, U) == Exec(s, actions, U)
    decreases |actions|
  {
    if actions != [] { StateAtEnd(Apply(s, actions[0]), actions[1..], U); }
  }

  lemma {:induction false} StateAtStep(s: State, actions: seq<Action>, i: nat, U: iset<Package>)
    requires IsRun(s, actions, U) && i < |actions|
    ensures Enabled(StateAt(s, actions, i, U), actions[i]) && Requests(actions[i], U)
    ensures StateAt(s, actions, i + 1, U) == Apply(StateAt(s, actions, i, U), actions[i])
    decreases i
  {
    if i > 0 { StateAtStep(Apply(s, actions[0]), actions[1..], i - 1, U); }
  }

  /** Step i makes it, and none after it ends it. */
  ghost predicate MadeForGood(n: nat, makes: nat -> bool, ends: nat -> bool, i: nat) {
    i < n && makes(i) && forall j :: i < j < n ==> !ends(j)
  }

  /** What holds after n steps held at the start and was never ended, or was made and not ended since. */
  lemma {:induction false} Latch(n: nat, p: nat -> bool, makes: nat -> bool, ends: nat -> bool)
    requires forall i: nat :: i < n ==> (p(i + 1) <==> makes(i) || (p(i) && !ends(i)))
    ensures p(n) <==> (p(0) && forall i: nat :: i < n ==> !ends(i)) || exists i: nat :: MadeForGood(n, makes, ends, i)
  {
    if n > 0 {
      var m := n - 1;
      Latch(m, p, makes, ends);
      assert p(m + 1) <==> makes(m) || (p(m) && !ends(m));
      if makes(m) {
        assert MadeForGood(n, makes, ends, m);
      } else {
        forall i: nat | i < m ensures MadeForGood(n, makes, ends, i) <==> MadeForGood(m, makes, ends, i) && !ends(m) {
        }
        if i: nat :| MadeForGood(n, makes, ends, i) { assert i < m && MadeForGood(m, makes, ends, i); }
        if i: nat :| MadeForGood(m, makes, ends, i) && !ends(m) { assert MadeForGood(n, makes, ends, i); }
      }
    }
  }
}
