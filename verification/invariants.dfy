/**
 What holds of every state the lottery can reach, and what each call does
 to it.

 `Valid(k, st, t)` is stated relative to `t`, the time of the last accepted
 call: block time never goes backwards, so a state in which a ticket price
 has been returned is only ever seen from the Expired window on, and that is
 what rules out an `endLottery` after a refund.
 */
module Invariants {
  import opened Hashing
  import opened PhaseClock
  import opened Escrow
  import opened Lottery

  ghost predicate Distinct(s: seq<Address>)
  {
    forall i, j | 0 <= i < j < |s| :: s[i] != s[j]
  }

  /** Every listed revealer holds a ticket whose secret is revealed. */
  predicate RevealersRevealed(st: State)
  {
    forall i | 0 <= i < |st.revealers| ::
      st.revealers[i] in st.tickets && st.tickets[st.revealers[i]].secret.Some?
  }

  /** The revealed secrets, in reveal order. */
  function RevealedSecrets(st: State): (s: seq<nat>)
    requires RevealersRevealed(st)
    ensures |s| == |st.revealers|
  {
    seq(|st.revealers|, i requires 0 <= i < |st.revealers| => st.tickets[st.revealers[i]].secret.value)
  }

  /** Buyers whose ticket price is still held by the contract. */
  function Live(st: State): set<Address>
  {
    set a | a in st.tickets && !st.tickets[a].returned
  }

  ghost predicate Valid(k: Keccak, st: State, t: nat)
  {
    && st.config.ticketPrice > 0
    && st.config.deposit >= DepositTickets * st.config.ticketPrice
    // the reveal list is the set of revealed tickets, each once, in order
    && Distinct(st.revealers)
    && RevealersRevealed(st)
    && (forall a | a in st.tickets && st.tickets[a].secret.Some? :: a in st.revealers)
    // the accumulator is the fold of exactly the revealed secrets
    && st.acc == Accumulate(k, RevealedSecrets(st))
    // until the round is ended the deposit and every held ticket price are covered
    && (!st.ended ==> st.balance >= st.config.deposit + st.config.ticketPrice * |Live(st)|)
    // nothing is returned before the Expired window
    && (t < ExpiryStart(st.config.schedule) ==> Live(st) == st.tickets.Keys)
  }

  lemma DeployEstablishesValid(k: Keccak, owner: Address, ticketPrice: nat, salesDays: nat, revealDays: nat,
                               endDays: nat, commission: nat, ownerHash: nat, value: nat)
    requires Deploy(owner, ticketPrice, salesDays, revealDays, endDays, commission, ownerHash, value).Ok?
    ensures Valid(k, Deploy(owner, ticketPrice, salesDays, revealDays, endDays, commission, ownerHash, value).value.state, 0)
  {
    var st := Deploy(owner, ticketPrice, salesDays, revealDays, endDays, commission, ownerHash, value).value.state;
    assert Live(st) == {};
    assert RevealedSecrets(st) == [];
  }

  /** Waiting never invalidates a state. */
  lemma ValidLater(k: Keccak, st: State, t: nat, t': nat)
    requires Valid(k, st, t) && t <= t'
    ensures Valid(k, st, t')
  {
  }

  lemma BuyKeepsValid(k: Keccak, st: State, t: nat, caller: Address, hash: nat, payment: nat, now: nat)
    requires Valid(k, st, t) && t <= now
    requires BuyTicket(st, caller, hash, payment, now).Ok?
    ensures Valid(k, BuyTicket(st, caller, hash, payment, now).value.state, now)
  {
    var st' := BuyTicket(st, caller, hash, payment, now).value.state;
    var price := st.config.ticketPrice;
    assert caller !in st.tickets;
    assert Live(st') == Live(st) + {caller};
    var n := |Live(st)|;
    assert |Live(st')| == n + 1;
    assert price * (n + 1) == price * n + price;
    assert RevealersRevealed(st');
    assert RevealedSecrets(st') == RevealedSecrets(st);
    assert now < ExpiryStart(st.config.schedule);
  }

  lemma RevealKeepsValid(k: Keccak, st: State, t: nat, caller: Address, secret: nat, now: nat)
    requires Valid(k, st, t) && t <= now
    requires RevealSecret(k, st, caller, secret, now).Ok?
    ensures Valid(k, RevealSecret(k, st, caller, secret, now).value.state, now)
  {
    var st' := RevealSecret(k, st, caller, secret, now).value.state;
    assert caller !in st.revealers;
    assert Distinct(st'.revealers) by {
      forall i, j | 0 <= i < j < |st'.revealers|
        ensures st'.revealers[i] != st'.revealers[j]
      {
        if j == |st.revealers| {
          assert st'.revealers[i] == st.revealers[i];
        }
      }
    }
    assert RevealersRevealed(st');
    assert RevealedSecrets(st') == RevealedSecrets(st) + [secret];
    AccumulateSnoc(k, RevealedSecrets(st), secret);
    assert Live(st') == Live(st);
  }

  lemma EndKeepsValid(k: Keccak, st: State, t: nat, caller: Address, ownerSecret: nat, now: nat)
    requires Valid(k, st, t) && t <= now
    requires EndLottery(k, st, caller, ownerSecret, now).Ok?
    ensures Valid(k, EndLottery(k, st, caller, ownerSecret, now).value.state, now)
  {
    var st' := EndLottery(k, st, caller, ownerSecret, now).value.state;
    assert RevealedSecrets(st') == RevealedSecrets(st);
    assert Live(st') == Live(st);
  }

  lemma ReturnKeepsValid(k: Keccak, st: State, t: nat, caller: Address, secret: nat, now: nat)
    requires Valid(k, st, t) && t <= now
    requires ReturnTicket(k, st, caller, secret, now).Ok?
    ensures Valid(k, ReturnTicket(k, st, caller, secret, now).value.state, now)
  {
    var st' := ReturnTicket(k, st, caller, secret, now).value.state;
    var price := st.config.ticketPrice;
    assert caller in Live(st);
    assert Live(st') == Live(st) - {caller};
    assert |Live(st')| == |Live(st)| - 1;
    assert price * |Live(st)| == price * |Live(st')| + price;
    assert RevealersRevealed(st');
    assert RevealedSecrets(st') == RevealedSecrets(st);
  }

  /** The contract always holds enough to pay the winner, the commission and
      the deposit back: `endLottery` never fails for lack of funds. */
  lemma EndNeverOverdraws(k: Keccak, st: State, t: nat, caller: Address, ownerSecret: nat, now: nat)
    requires Valid(k, st, t) && t <= now
    ensures EndLottery(k, st, caller, ownerSecret, now) != Err(InsufficientBalance)
  {
    var c := st.config;
    if caller == c.owner && CurrentPhase(st, now) == End && !st.ended {
      assert Live(st) == st.tickets.Keys;
      assert |Live(st)| == |st.tickets|;
      SplitBounds(TicketMoney(st), c.commission);
    }
  }

  /** Every ticket price still held can be returned: `returnTicket` never fails
      for lack of funds. */
  lemma ReturnNeverOverdraws(k: Keccak, st: State, t: nat, caller: Address, secret: nat, now: nat)
    requires Valid(k, st, t) && t <= now
    ensures ReturnTicket(k, st, caller, secret, now) != Err(InsufficientBalance)
  {
    if !st.ended && HasTicket(st, caller) {
      assert caller in Live(st);
      assert |Live(st)| >= 1;
      assert st.config.ticketPrice * |Live(st)| >= st.config.ticketPrice;
    }
  }

  /** The winner is the revealer at position `seed mod n` where the seed is
      the fold of every revealed secret, in reveal order, followed by the
      owner's secret; the winner holds a revealed ticket whose price is still
      in the pot, so a buyer who never revealed cannot win. */
  lemma WinnerIsRevealer(k: Keccak, st: State, t: nat, caller: Address, ownerSecret: nat, now: nat)
    requires Valid(k, st, t) && t <= now
    requires EndLottery(k, st, caller, ownerSecret, now).Ok?
    ensures var w := EndLottery(k, st, caller, ownerSecret, now).value.event.winner;
      && w == st.revealers[Accumulate(k, RevealedSecrets(st) + [ownerSecret]) % |st.revealers|]
      && w in st.tickets && st.tickets[w].secret.Some? && !st.tickets[w].returned
    ensures forall a | a in st.tickets && st.tickets[a].secret.None? ::
      a != EndLottery(k, st, caller, ownerSecret, now).value.event.winner
  {
    AccumulateSnoc(k, RevealedSecrets(st), ownerSecret);
    var w := EndLottery(k, st, caller, ownerSecret, now).value.event.winner;
    assert w in Live(st);
  }
}
