/**
 Calls that cannot take effect twice: one ticket per buyer, one reveal per
 ticket, one end per round, one refund per ticket.
 */
module Settlement {
  import opened Hashing
  import opened PhaseClock
  import opened Escrow
  import opened Lottery

  /** After a purchase the buyer cannot buy again, whatever the payment. */
  lemma BuyOnce(st: State, caller: Address, hash: nat, payment: nat, now: nat,
                hash2: nat, payment2: nat, now2: nat)
    requires BuyTicket(st, caller, hash, payment, now).Ok?
    ensures BuyTicket(BuyTicket(st, caller, hash, payment, now).value.state, caller, hash2, payment2, now2).Err?
  {
  }

  /** After a reveal the same buyer's second reveal fails, with any secret. */
  lemma RevealOnce(k: Keccak, st: State, caller: Address, secret: nat, now: nat, secret2: nat, now2: nat)
    requires RevealSecret(k, st, caller, secret, now).Ok?
    ensures RevealSecret(k, RevealSecret(k, st, caller, secret, now).value.state, caller, secret2, now2).Err?
  {
  }

  /** A round ends once: after an accepted `endLottery` every further call
      to it fails, so the prize and the deposit are paid out once. */
  lemma EndOnce(k: Keccak, st: State, caller: Address, ownerSecret: nat, now: nat,
                caller2: Address, ownerSecret2: nat, now2: nat)
    requires EndLottery(k, st, caller, ownerSecret, now).Ok?
    ensures EndLottery(k, EndLottery(k, st, caller, ownerSecret, now).value.state, caller2, ownerSecret2, now2).Err?
  {
  }

  /** After an accepted `endLottery`, no ticket price is returned. */
  lemma NoRefundAfterEnd(k: Keccak, st: State, caller: Address, ownerSecret: nat, now: nat,
                         buyer: Address, secret: nat, now2: nat)
    requires EndLottery(k, st, caller, ownerSecret, now).Ok?
    ensures ReturnTicket(k, EndLottery(k, st, caller, ownerSecret, now).value.state, buyer, secret, now2).Err?
  {
  }

  /** A ticket price is returned once: a second `returnTicket` by the same
      buyer finds no ticket. */
  lemma ReturnOnce(k: Keccak, st: State, caller: Address, secret: nat, now: nat, secret2: nat, now2: nat)
    requires ReturnTicket(k, st, caller, secret, now).Ok?
    ensures var st' := ReturnTicket(k, st, caller, secret, now).value.state;
      && !HasTicket(st', caller)
      && ReturnTicket(k, st', caller, secret2, now2).Err?
      && (now2 >= now ==> ReturnTicket(k, st', caller, secret2, now2) == Err(NoTicket))
  {
  }
}
