/** Positions found in several ranges, each counted once per range: a sum of sizes is the size of a set of pairs. */
module Counting {

  lemma {:induction false} PairsOf(i: nat, positions: set<nat>)
    ensures |set b: nat | b in positions :: (i, b)| == |positions|
    decreases |positions|
  {
    var pairs := set b: nat | b in positions :: (i, b);
    if x :| x in positions {
      PairsOf(i, positions - {x});
      var fewer := set b: nat | b in positions - {x} :: (i, b);
      assert (i, x) !in fewer && pairs == fewer + {(i, x)};
    } else {
      assert pairs == {};
    }
  }

  function Sizes(found: seq<set<nat>>): nat
    decreases |found|
  {
    if |found| == 0 then 0 else Sizes(found[..|found| - 1]) + |found[|found| - 1]|
  }

  lemma {:induction false} SizesCount(found: seq<set<nat>>)
    ensures Sizes(found) == |set i: nat, b: nat | i < |found| && b in found[i] :: (i, b)|
    decreases |found|
  {
    var all := set i: nat, b: nat | i < |found| && b in found[i] :: (i, b);
    if |found| == 0 {
      assert all == {};
    } else {
      var init, last := found[..|found| - 1], found[|found| - 1];
      SizesCount(init);
      PairsOf(|init|, last);
      var earlier := set i: nat, b: nat | i < |init| && b in init[i] :: (i, b);
      var more := set b: nat | b in last :: (|init|, b);
      assert earlier !! more && all == earlier + more;
    }
  }

  lemma {:induction false} Positions(start: nat, end: nat) returns (positions: set<nat>)
    requires start <= end
    ensures (forall b: nat :: b in positions <==> start <= b < end) && |positions| == end - start
    decreases end
  {
    positions := {};
    if start < end {
      positions := Positions(start, end - 1);
      positions := positions + {end - 1};
    }
  }
}
