/**
 Funds held by the lottery: payouts leaving the contract and the split of the
 ticket money between the winner's prize and the owner's commission.
 Amounts are in wei, addresses are opaque numbers.
 */
module Escrow {

  type Address = nat

  /** Commission in percent; deployment rejects 100 and above. */
  type Percent = c: nat | c < 100

  /** A transfer of `amount` from the contract to `to`. */
  datatype Payout = Payout(to: Address, amount: nat)

  /** Sum of the amounts of a list of payouts. */
  function Total(ps: seq<Payout>): nat
  {
    if |ps| == 0 then 0 else Total(ps[..|ps| - 1]) + ps[|ps| - 1].amount
  }

  lemma TotalOfTwo(p: Payout, q: Payout)
    ensures Total([p, q]) == p.amount + q.amount
  {
    assert [p, q][..1] == [p];
    assert [p][..0] == [];
    assert Total([p]) == p.amount;
  }

  /** The winner's share of `total`: (100 - commission) percent, rounded down. */
  function Prize(total: nat, commission: Percent): nat
  {
    total * (100 - commission) / 100
  }

  /** The owner's share of `total`: commission percent, rounded down. */
  function Commission(total: nat, commission: Percent): nat
  {
    total * commission / 100
  }

  /** The two shares never exceed the money collected, and the two roundings
      together keep back at most one wei. */
  lemma SplitBounds(total: nat, commission: Percent)
    ensures Prize(total, commission) + Commission(total, commission) <= total
    ensures total <= Prize(total, commission) + Commission(total, commission) + 1
  {
    var x := total * (100 - commission);
    var y := total * commission;
    assert x + y == 100 * total;
    var p, q := x / 100, y / 100;
    assert p * 100 <= x < p * 100 + 100;
    assert q * 100 <= y < q * 100 + 100;
    assert (p + q) * 100 <= 100 * total;
    assert 100 * total < (p + q) * 100 + 200;
  }

  /** With a whole number of `price`-sized tickets and a price that is a
      multiple of 100, nothing is kept back: prize and commission add up to the
      ticket money exactly. */
  lemma SplitExact(price: nat, sold: nat, commission: Percent)
    requires price % 100 == 0
    ensures Prize(price * sold, commission) + Commission(price * sold, commission) == price * sold
  {
    var m := price / 100;
    assert price == 100 * m;
    assert price * sold * (100 - commission) == 100 * (m * sold * (100 - commission));
    assert price * sold * commission == 100 * (m * sold * commission);
    assert m * sold * (100 - commission) + m * sold * commission == m * sold * 100;
  }
}
