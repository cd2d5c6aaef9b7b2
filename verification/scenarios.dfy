/**
 The test suite's scenarios, stated against the model with the suite's
 default deployment: a ticket costs 10 ether, sales last 7 days, reveals 3,
 the end window 1, the commission is 20 percent, the deposit is 100 ether and
 the owner's secret is 1337. Address 0 is the owner; 1, 2, ... are buyers.
 Keccak is arbitrary; where a scenario relies on two secrets having
 different digests, the lemma says so in its `requires`.
 */
module Scenarios {
  import opened Hashing
  import opened PhaseClock
  import opened Escrow
  import opened Lottery

  const Ether: nat := 1_000_000_000_000_000_000
  const Price: nat := 10 * Ether
  const OwnerSecret: nat := 1337
  const Owner: Address := 0

  function DeployDefault(k: Keccak, ticketPrice: nat, salesDays: nat, revealDays: nat, endDays: nat,
                         commission: nat, value: nat): Result<Effect>
  {
    Deploy(Owner, ticketPrice, salesDays, revealDays, endDays, commission, k.one(OwnerSecret), value)
  }

  /** The freshly deployed default lottery. */
  function Fresh(k: Keccak): State
  {
    Deploy(Owner, Price, 7, 3, 1, 20, k.one(OwnerSecret), 10 * Price).value.state
  }

  /** Deployment: each bad parameter on its own reverts with its reason; the
      default deposit of ten tickets is taken from the owner and the round
      starts. */
  lemma DeployScenarios(k: Keccak)
    ensures Message(DeployDefault(k, 0, 7, 3, 1, 20, 10 * Price).reason) == "REQ: ticketPrice > 0"
    ensures Message(DeployDefault(k, Price, 0, 3, 1, 20, 10 * Price).reason) == "REQ: salesDuration > 0"
    ensures Message(DeployDefault(k, Price, 7, 0, 1, 20, 10 * Price).reason) == "REQ: revealDuration > 0"
    ensures Message(DeployDefault(k, Price, 7, 3, 0, 20, 10 * Price).reason) == "REQ: endDuration > 0"
    ensures Message(DeployDefault(k, Price, 7, 3, 1, 146, 10 * Price).reason) == "REQ: commission < 100"
    ensures Message(DeployDefault(k, Price, 7, 3, 1, 20, Price).reason) == "Not enough funds for deposit"
    ensures DeployDefault(k, Price, 7, 3, 1, 20, 10 * Price).Ok?
    ensures DeployDefault(k, Price, 7, 3, 1, 20, 10 * Price).value.event == Started
    ensures Fresh(k).balance == 10 * Price
  {
  }

  /** buyTicket: the exact price is accepted and moves to the contract; one
      ether is not enough; after the sales window nothing is sold. */
  lemma BuyScenarios(k: Keccak)
    ensures var r := BuyTicket(Fresh(k), 1, 0, Price, 0);
      && r.Ok? && r.value.event == TicketBought(1)
      && r.value.state.balance == Fresh(k).balance + Price && r.value.payouts == []
    ensures Message(BuyTicket(Fresh(k), 1, 0, Ether, 0).reason) == "Not enough funds to buy a ticket"
    ensures Message(BuyTicket(Fresh(k), 1, 0, Price, Seconds(8)).reason) == "No more ticket sales"
  {
  }

  /** The default lottery after buyer 1 committed to 2762. */
  function Bought(k: Keccak): State
  {
    BuyTicket(Fresh(k), 1, k.one(2762), Price, 0).value.state
  }

  /** revealSecret: too early during sales, too late from day 10, no ticket
      for a stranger, wrong secret rejected, the right one accepted on day 7. */
  lemma RevealScenarios(k: Keccak)
    requires k.one(1337) != k.one(2762)
    ensures Message(RevealSecret(k, Bought(k), 1, 2762, 0).reason) == "It's too early to reveal"
    ensures Message(RevealSecret(k, Bought(k), 1, 2762, Seconds(10)).reason) == "No more reveals"
    ensures Message(RevealSecret(k, Fresh(k), 1, 0, Seconds(8)).reason) == "No ticket"
    ensures Message(RevealSecret(k, Bought(k), 1, 1337, Seconds(8)).reason) == "Secret doesn't match stored hash"
    ensures var r := RevealSecret(k, Bought(k), 1, 2762, Seconds(7));
      r.Ok? && r.value.event == SecretRevealed(1) && r.value.state.acc == k.two(2762, 0)
  {
    assert BuyTicket(Fresh(k), 1, k.one(2762), Price, 0).Ok?;
  }

  /** endLottery: a stranger is refused before anything else, the owner is
      refused before day 10 and from day 11, and a wrong owner secret is
      refused on day 10. */
  lemma EndRefusals(k: Keccak)
    requires k.one(0) != k.one(OwnerSecret)
    ensures Message(EndLottery(k, Fresh(k), 1, 0, 0).reason) == "Ownable: caller is not the owner"
    ensures Message(EndLottery(k, Fresh(k), Owner, 0, 0).reason) == "Lottery is still in progress"
    ensures Message(EndLottery(k, Fresh(k), Owner, 0, Seconds(11)).reason) == "It's too late to end the lottery"
    ensures Message(EndLottery(k, Fresh(k), Owner, 0, Seconds(10)).reason) == "Secret doesn't match stored hash"
  {
  }

  /** Four buyers commit to 1001..1004 during the sale. */
  function FourSold(k: Keccak): State
  {
    var s1 := BuyTicket(Fresh(k), 1, k.one(1001), Price, 0).value.state;
    var s2 := BuyTicket(s1, 2, k.one(1002), Price, 0).value.state;
    var s3 := BuyTicket(s2, 3, k.one(1003), Price, 0).value.state;
    BuyTicket(s3, 4, k.one(1004), Price, 0).value.state
  }

  /** Buyers 1, 2 and 3 reveal on day 7; buyer 4 never does. */
  function ThreeRevealed(k: Keccak): State
  {
    var s5 := RevealSecret(k, FourSold(k), 1, 1001, Seconds(7)).value.state;
    var s6 := RevealSecret(k, s5, 2, 1002, Seconds(7)).value.state;
    RevealSecret(k, s6, 3, 1003, Seconds(7)).value.state
  }

  /** The full round: the accumulator folds 1001, 1002, 1003 and then the
      owner's 1337; the winner is buyer 1 + (seed mod 3); the prize is
      4 x 10 x 80 / 100 = 32 ether; the owner gets 8 ether of commission plus
      the 100 ether deposit. */
  lemma EndSuccessScenario(k: Keccak)
    ensures var seed := Accumulate(k, [1001, 1002, 1003, OwnerSecret]);
      var winner := 1 + seed % 3;
      var r := EndLottery(k, ThreeRevealed(k), Owner, OwnerSecret, Seconds(10));
      && r.Ok?
      && r.value.event == LotteryEnded(winner, 32 * Ether)
      && r.value.payouts == [Payout(winner, 32 * Ether), Payout(Owner, 8 * Ether + 100 * Ether)]
  {
    var s0 := Fresh(k);
    var s1 := BuyTicket(s0, 1, k.one(1001), Price, 0);
    assert s1.Ok?;
    var s2 := BuyTicket(s1.value.state, 2, k.one(1002), Price, 0);
    assert s2.Ok?;
    var s3 := BuyTicket(s2.value.state, 3, k.one(1003), Price, 0);
    assert s3.Ok?;
    var s4 := BuyTicket(s3.value.state, 4, k.one(1004), Price, 0);
    assert s4.Ok?;
    assert s4.value.state == FourSold(k);
    assert |FourSold(k).tickets| == 4;
    var s5 := RevealSecret(k, FourSold(k), 1, 1001, Seconds(7));
    assert s5.Ok?;
    var s6 := RevealSecret(k, s5.value.state, 2, 1002, Seconds(7));
    assert s6.Ok?;
    var s7 := RevealSecret(k, s6.value.state, 3, 1003, Seconds(7));
    assert s7.Ok?;
    var st := ThreeRevealed(k);
    assert st == s7.value.state;
    assert st.revealers == [1, 2, 3];
    assert st.acc == k.two(1003, k.two(1002, k.two(1001, 0)));
    assert |st.tickets| == 4;
    AccumulateSnoc(k, [1001], 1002);
    AccumulateSnoc(k, [1001, 1002], 1003);
    AccumulateSnoc(k, [1001, 1002, 1003], OwnerSecret);
    assert [1001] + [1002] == [1001, 1002];
    assert [1001, 1002] + [1003] == [1001, 1002, 1003];
    assert [1001, 1002, 1003] + [OwnerSecret] == [1001, 1002, 1003, OwnerSecret];
    assert Accumulate(k, [1001]) == k.two(1001, 0);
    assert TicketMoney(st) == 40 * Ether;
    assert Prize(40 * Ether, 20) == 32 * Ether;
    assert Commission(40 * Ether, 20) == 8 * Ether;
  }

  /** returnTicket: a stranger has no ticket, a wrong secret is refused, it is
      too early before day 11, and the holder of an unrevealed ticket gets the
      ticket price back. */
  lemma ReturnScenarios(k: Keccak)
    requires k.one(0) != k.one(2762)
    ensures Message(ReturnTicket(k, Fresh(k), 1, 0, Seconds(11)).reason) == "No ticket"
    ensures Message(ReturnTicket(k, Bought(k), 1, 0, Seconds(11)).reason) == "Secret doesn't match stored hash"
    ensures Message(ReturnTicket(k, Fresh(k), 1, 0, 0).reason) == "It's too early to return tickets"
    ensures var r := ReturnTicket(k, Bought(k), 1, 2762, Seconds(11));
      && r.Ok? && r.value.event == TicketReturned(1) && r.value.payouts == [Payout(1, Price)]
  {
    assert BuyTicket(Fresh(k), 1, k.one(2762), Price, 0).Ok?;
  }
}
