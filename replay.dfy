/** Builders in the core record or apply setter calls one after another. This module
    gives the meaning of a sequence of such calls (apply them in order) and the
    "last call wins" facts that hold for any field a setter overwrites. */
module Replays {
  /** The state after applying `ops`, first to last, to `s`. */
  function Replay<S, O>(apply: (S, O) -> S, s: S, ops: seq<O>): S
  {
    if ops == [] then s else apply(Replay(apply, s, ops[..|ops| - 1]), ops[|ops| - 1])
  }

  /** Appending one call applies it to the previous result. */
  lemma ReplaySnoc<S, O>(apply: (S, O) -> S, s: S, ops: seq<O>, op: O)
    ensures Replay(apply, s, ops + [op]) == apply(Replay(apply, s, ops), op)
  {
    assert (ops + [op])[..|ops + [op]| - 1] == ops;
  }

  /** A field that no call writes keeps its initial value. */
  lemma {:induction false} ReplayUnwritten<S, O, V>(apply: (S, O) -> S, get: S -> V, writes: O -> bool, val: O -> V, s: S, ops: seq<O>)
    requires forall t, o :: get(apply(t, o)) == if writes(o) then val(o) else get(t)
    requires forall j :: 0 <= j < |ops| ==> !writes(ops[j])
    ensures get(Replay(apply, s, ops)) == get(s)
    decreases |ops|
  {
    if ops != [] {
      ReplayUnwritten(apply, get, writes, val, s, ops[..|ops| - 1]);
    }
  }

  /** The value of a field is the one given by the last call that writes it. */
  lemma {:induction false} ReplayLastWrite<S, O, V>(apply: (S, O) -> S, get: S -> V, writes: O -> bool, val: O -> V, s: S, ops: seq<O>, i: nat)
    requires forall t, o :: get(apply(t, o)) == if writes(o) then val(o) else get(t)
    requires i < |ops| && writes(ops[i])
    requires forall j :: i < j < |ops| ==> !writes(ops[j])
    ensures get(Replay(apply, s, ops)) == val(ops[i])
    decreases |ops|
  {
    if i < |ops| - 1 {
      ReplayLastWrite(apply, get, writes, val, s, ops[..|ops| - 1], i);
    }
  }
}
