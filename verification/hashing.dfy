/**
 Commit-reveal hashing and the randomness accumulator.

 Keccak-256 is not modelled: it is a pair of arbitrary functions passed in by
 the caller, and digests are only ever compared for equality. `one` is the
 digest of a single packed uint256 (the commitment of a secret); `two` is the
 digest of two packed uint256 values (one step of the accumulator fold).
 */
module Hashing {

  datatype Keccak = Keccak(one: nat -> nat, two: (nat, nat) -> nat)

  /** The accumulator obtained by folding `secrets`, first to last, into `acc`:
      each secret `s` replaces the running value `a` by `two(s, a)`. */
  function FoldFrom(k: Keccak, acc: nat, secrets: seq<nat>): nat
    decreases |secrets|
  {
    if |secrets| == 0 then acc
    else FoldFrom(k, k.two(secrets[0], acc), secrets[1..])
  }

  /** The accumulator of a round: it starts at zero and folds the secrets in
      the order they were revealed. */
  function Accumulate(k: Keccak, secrets: seq<nat>): nat
  {
    FoldFrom(k, 0, secrets)
  }

  /** Folding one more secret at the end is one more hash step on top of the
      value folded so far: this is what lets the contract keep only the running
      value instead of the whole list. */
  lemma {:induction false} FoldFromSnoc(k: Keccak, acc: nat, secrets: seq<nat>, s: nat)
    ensures FoldFrom(k, acc, secrets + [s]) == k.two(s, FoldFrom(k, acc, secrets))
    decreases |secrets|
  {
    if |secrets| == 0 {
      assert secrets + [s] == [s];
      assert [s][1..] == [];
    } else {
      assert (secrets + [s])[0] == secrets[0];
      assert (secrets + [s])[1..] == secrets[1..] + [s];
      FoldFromSnoc(k, k.two(secrets[0], acc), secrets[1..], s);
    }
  }

  lemma AccumulateSnoc(k: Keccak, secrets: seq<nat>, s: nat)
    ensures Accumulate(k, secrets + [s]) == k.two(s, Accumulate(k, secrets))
  {
    FoldFromSnoc(k, 0, secrets, s);
  }

  /** Recomputes the accumulator from the ordered list of revealed secrets,
      one hash step per secret, the way an observer of the round does. */
  method Recompute(k: Keccak, secrets: seq<nat>) returns (acc: nat)
    ensures acc == Accumulate(k, secrets)
  {
    acc := 0;
    var i := 0;
    while i < |secrets|
      invariant 0 <= i <= |secrets|
      invariant acc == Accumulate(k, secrets[..i])
    {
      assert secrets[..i + 1] == secrets[..i] + [secrets[i]];
      AccumulateSnoc(k, secrets[..i], secrets[i]);
      acc := k.two(secrets[i], acc);
      i := i + 1;
    }
    assert secrets[..i] == secrets;
  }

  /** Zero-based position of the winner among `n` revealers. */
  function WinnerIndex(seed: nat, n: nat): (i: nat)
    requires n > 0
    ensures i < n
    ensures seed == n * (seed / n) + i
  {
    seed % n
  }
}
