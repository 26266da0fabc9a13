/** The sanity checks every state read ends with: the height is a safe integer and the
    hot blocks, prefixed by the status row, form a chain of consecutive heights. */
module Invariants {
  import opened Base

  const MaxSafeInteger := 9007199254740991   // Number.MAX_SAFE_INTEGER, 2^53 - 1

  /** `Number.isSafeInteger(h)` for an integer h. */
  predicate SafeInteger(h: int)
  {
    -MaxSafeInteger <= h <= MaxSafeInteger
  }

  /** Each block's height is its predecessor's plus one, the first block's predecessor
      being the base. Hashes are not compared. */
  predicate Continuous(base: HashAndHeight, chain: seq<HashAndHeight>)
  {
    && (|chain| > 0 ==> chain[0].height == base.height + 1)
    && forall i :: 0 < i < |chain| ==> chain[i].height == chain[i - 1].height + 1
  }

  /** The same chain condition by offsets: block i sits exactly i + 1 above the base. */
  lemma {:induction false} ContinuousIffOffsets(base: HashAndHeight, chain: seq<HashAndHeight>)
    ensures Continuous(base, chain) <==> forall i :: 0 <= i < |chain| ==> chain[i].height == base.height + i + 1
  {
    if Continuous(base, chain) {
      var k := 0;
      while k < |chain|
        invariant 0 <= k <= |chain|
        invariant forall i :: 0 <= i < k ==> chain[i].height == base.height + i + 1
      {
        if k > 0 {
          assert chain[k].height == chain[k - 1].height + 1;
        }
        k := k + 1;
      }
    }
  }

  /** `assertChainContinuity(base, chain)`. */
  method AssertChainContinuity(base: HashAndHeight, chain: seq<HashAndHeight>) returns (r: Outcome)
    ensures r == if Continuous(base, chain) then Pass else Fail(AssertFailed(ChainMsg))
  {
    var prev := base;
    var i := 0;
    while i < |chain|
      invariant 0 <= i <= |chain|
      invariant prev == if i == 0 then base else chain[i - 1]
      invariant Continuous(base, chain[..i])
    {
      if chain[i].height != prev.height + 1 {
        assert !Continuous(base, chain) by {
          if i > 0 { assert chain[i - 1] == prev; }
        }
        return Fail(AssertFailed(ChainMsg));
      }
      prev := chain[i];
      i := i + 1;
    }
    assert chain[..i] == chain;
    return Pass;
  }

  /** What `assertStateInvariants(state)` does: returns the state itself, or the first failed check. */
  function StateInvariants(state: DatabaseState): Result<DatabaseState>
  {
    if !SafeInteger(state.height) then Err(AssertFailed(SafeHeightMsg))
    else if !Continuous(HashAndHeight(state.height, state.hash), state.top) then Err(AssertFailed(ChainMsg))
    else Ok(state)
  }

  /** `assertStateInvariants(state)`. */
  method AssertStateInvariants(state: DatabaseState) returns (r: Result<DatabaseState>)
    ensures r == StateInvariants(state)
    ensures r.Ok? <==> SafeInteger(state.height) && Continuous(HashAndHeight(state.height, state.hash), state.top)
    ensures r.Ok? ==> r.value == state
  {
    if !SafeInteger(state.height) {
      return Err(AssertFailed(SafeHeightMsg));
    }
    var c := AssertChainContinuity(HashAndHeight(state.height, state.hash), state.top);
    if c.Fail? {
      return Err(c.error);
    }
    return Ok(state);
  }
}
