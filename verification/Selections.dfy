/** Parts of a sequence picked by position, in order. */
module Selections {
  /** These are positions of a sequence of length `n`, in order. */
  predicate Picks(at: seq<nat>, n: nat) {
    (forall i :: 0 <= i < |at| ==> at[i] < n) && forall i, j :: 0 <= i < j < |at| ==> at[i] < at[j]
  }

  /** The positions in a sequence with one more element in front, which is picked or not. */
  function Behind(at: seq<nat>, picked: bool): (out: seq<nat>)
    ensures |out| == |at| + if picked then 1 else 0
  {
    (if picked then [0] else []) + seq(|at|, i requires 0 <= i < |at| => at[i] + 1)
  }

  lemma BehindPicks(at: seq<nat>, n: nat, picked: bool)
    requires Picks(at, n)
    ensures var all, skip := Behind(at, picked), if picked then 1 else 0;
      && Picks(all, n + 1) && (picked ==> all[0] == 0)
      && forall i :: 0 <= i < |at| ==> all[i + skip] == at[i] + 1
  {
  }

  lemma BehindHolds(at: seq<nat>, picked: bool, p: nat)
    ensures p in Behind(at, picked) <==> if p == 0 then picked else (p - 1) as nat in at
  {
    var all, skip := Behind(at, picked), if picked then 1 else 0;
    if p in all {
      var i :| 0 <= i < |all| && all[i] == p;
      if i >= skip { assert at[i - skip] == p - 1; }
    }
    if p > 0 && (p - 1) as nat in at {
      var i :| 0 <= i < |at| && at[i] == p - 1;
      assert all[i + skip] == p;
    }
    if p == 0 && picked { assert all[0] == 0; }
  }

  /** `out` says, in order and one for one, what stands in `from` at the positions `at`, and those are
      exactly the positions of what is wanted. */
  ghost predicate Selects<A(!new), B(!new)>(out: seq<B>, from: seq<A>, at: seq<nat>, says: (B, A) -> bool, wanted: A -> bool) {
    && Picks(at, |from|) && |out| == |at|
    && (forall i :: 0 <= i < |at| ==> says(out[i], from[at[i]]))
    && (forall p: nat :: p < |from| ==> (p in at <==> wanted(from[p])))
  }

  lemma SelectsBehind<A(!new), B(!new)>(a: A, rest: seq<A>, out: seq<B>, later: seq<B>, at: seq<nat>,
                               says: (B, A) -> bool, wanted: A -> bool)
    requires Selects(later, rest, at, says, wanted)
    requires if wanted(a) then |out| == 1 + |later| && says(out[0], a) && out[1..] == later else out == later
    ensures Selects(out, [a] + rest, Behind(at, wanted(a)), says, wanted)
  {
    hide Behind;
    BehindPicks(at, |rest|, wanted(a));
    var all, from := Behind(at, wanted(a)), [a] + rest;
    forall p: nat | p < |from| ensures p in all <==> wanted(from[p]) {
      BehindHolds(at, wanted(a), p);
    }
    SaysBehind(a, rest, out, later, at, all, says, wanted);
  }

  lemma SaysBehind<A(!new), B(!new)>(a: A, rest: seq<A>, out: seq<B>, later: seq<B>, at: seq<nat>, all: seq<nat>,
                            says: (B, A) -> bool, wanted: A -> bool)
    requires Picks(at, |rest|) && |later| == |at| && forall i :: 0 <= i < |at| ==> says(later[i], rest[at[i]])
    requires if wanted(a) then |out| == 1 + |later| && says(out[0], a) && out[1..] == later else out == later
    requires var skip := if wanted(a) then 1 else 0;
      |all| == |at| + skip && Picks(all, 1 + |rest|) && (wanted(a) ==> all[0] == 0) && forall i :: 0 <= i < |at| ==> all[i + skip] == at[i] + 1
    ensures forall i :: 0 <= i < |all| ==> says(out[i], ([a] + rest)[all[i]])
  {
    var skip := if wanted(a) then 1 else 0;
    forall i | 0 <= i < |all| ensures says(out[i], ([a] + rest)[all[i]]) {
      if i >= skip {
        assert all[i - skip + skip] == at[i - skip] + 1;
        assert out[i] == later[i - skip];
      }
    }
  }
}
