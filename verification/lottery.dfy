/**
 The single-round commit-reveal lottery as pure step functions.

 Every public call of the contract is a function from the current state, the
 caller, the call's arguments and the seconds elapsed since deployment to
 either the reason string the call reverts with, or the next state together
 with the payouts the call makes and the event it emits. A reverted call
 changes nothing: the caller keeps the old state.
 */
module Lottery {
  import opened Hashing
  import opened PhaseClock
  import opened Escrow

  datatype Option<T> = None | Some(value: T)

  /** Why a call reverts. The first sixteen carry the contract's own reason
      strings; the last five are the model's explicit choices for situations
      the contract's behaviour is not pinned for (see `Message`). */
  datatype Reason =
    | TicketPriceZero
    | SalesDurationZero
    | RevealDurationZero
    | EndDurationZero
    | CommissionTooHigh
    | DepositTooSmall
    | NotEnoughFunds
    | NoMoreTicketSales
    | TooEarlyToReveal
    | NoMoreReveals
    | NoTicket
    | SecretMismatch
    | NotOwner
    | StillInProgress
    | TooLateToEnd
    | TooEarlyToReturn
    | AlreadyBought
    | AlreadyRevealed
    | AlreadyEnded
    | NoReveals
    | InsufficientBalance

  function Message(r: Reason): string
  {
    match r
    case TicketPriceZero => "REQ: ticketPrice > 0"
    case SalesDurationZero => "REQ: salesDuration > 0"
    case RevealDurationZero => "REQ: revealDuration > 0"
    case EndDurationZero => "REQ: endDuration > 0"
    case CommissionTooHigh => "REQ: commission < 100"
    case DepositTooSmall => "Not enough funds for deposit"
    case NotEnoughFunds => "Not enough funds to buy a ticket"
    case NoMoreTicketSales => "No more ticket sales"
    case TooEarlyToReveal => "It's too early to reveal"
    case NoMoreReveals => "No more reveals"
    case NoTicket => "No ticket"
    case SecretMismatch => "Secret doesn't match stored hash"
    case NotOwner => "Ownable: caller is not the owner"
    case StillInProgress => "Lottery is still in progress"
    case TooLateToEnd => "It's too late to end the lottery"
    case TooEarlyToReturn => "It's too early to return tickets"
    // Model choices: a second purchase, a second reveal, a call after the
    // round was ended, ending with nobody revealed, and a transfer larger than
    // the contract's balance (which reverts on chain).
    case AlreadyBought => "Ticket already bought"
    case AlreadyRevealed => "Secret already revealed"
    case AlreadyEnded => "Lottery has already ended"
    case NoReveals => "No revealed tickets"
    case InsufficientBalance => "Insufficient balance"
  }

  datatype Result<T> = Ok(value: T) | Err(reason: Reason)

  /** Fixed at deployment. `deposit` is the value the owner sent along. */
  datatype Config = Config(
    owner: Address,
    ticketPrice: nat,
    schedule: Schedule,
    commission: Percent,
    ownerHash: nat,
    deposit: nat)

  /** A buyer's ticket: the committed digest, the secret once revealed, and
      whether the ticket price has been returned to the buyer. */
  datatype Ticket = Ticket(hash: nat, secret: Option<nat>, returned: bool)

  /** The contract's storage. `revealers` lists the buyers in the order their
      reveals were accepted; `acc` is the running randomness accumulator;
      `balance` is the ether the contract holds. */
  datatype State = State(
    config: Config,
    tickets: map<Address, Ticket>,
    revealers: seq<Address>,
    acc: nat,
    balance: nat,
    ended: bool)

  /** The events StartLottery, BuyTicket, RevealSecret, EndLottery and
      ReturnTicket. */
  datatype Event =
    | Started
    | TicketBought(buyer: Address)
    | SecretRevealed(buyer: Address)
    | LotteryEnded(winner: Address, prize: nat)
    | TicketReturned(buyer: Address)

  /** What an accepted call leaves behind. */
  datatype Effect = Effect(state: State, payouts: seq<Payout>, event: Event)

  /** The deposit must cover at least this many tickets. */
  const DepositTickets: nat := 10

  /** `a` holds a ticket whose price has not been returned. */
  predicate HasTicket(st: State, a: Address)
  {
    a in st.tickets && !st.tickets[a].returned
  }

  function CurrentPhase(st: State, elapsed: nat): Phase
  {
    PhaseAt(st.config.schedule, elapsed)
  }

  /** The money the tickets brought in: the price times every ticket sold,
      revealed or not. */
  function TicketMoney(st: State): nat
  {
    st.config.ticketPrice * |st.tickets|
  }

  /** The constructor. `value` is the ether sent with the deployment. */
  function Deploy(owner: Address, ticketPrice: nat, salesDays: nat, revealDays: nat, endDays: nat,
                  commission: nat, ownerHash: nat, value: nat): (r: Result<Effect>)
    ensures r.Ok? <==>
      ticketPrice > 0 && salesDays > 0 && revealDays > 0 && endDays > 0 && commission < 100
      && value >= 10 * ticketPrice
    ensures ticketPrice == 0 ==> r == Err(TicketPriceZero)
    ensures r.Ok? ==>
      var st := r.value.state;
      && st.config.owner == owner && st.config.ticketPrice == ticketPrice
      && st.config.commission == commission && st.config.ownerHash == ownerHash
      && st.config.schedule == Schedule(salesDays, revealDays, endDays)
      && st.tickets == map[] && st.revealers == [] && st.acc == 0 && !st.ended
      && st.balance == value && st.config.deposit == value
      && r.value.payouts == [] && r.value.event == Started
  {
    if ticketPrice == 0 then Err(TicketPriceZero)
    else if salesDays == 0 then Err(SalesDurationZero)
    else if revealDays == 0 then Err(RevealDurationZero)
    else if endDays == 0 then Err(EndDurationZero)
    else if commission >= 100 then Err(CommissionTooHigh)
    else if value < DepositTickets * ticketPrice then Err(DepositTooSmall)
    else
      var config := Config(owner, ticketPrice, Schedule(salesDays, revealDays, endDays), commission, ownerHash, value);
      Ok(Effect(State(config, map[], [], 0, value, false), [], Started))
  }

  /** A deployment with exactly one bad parameter reverts with that
      parameter's own reason, whichever it is. */
  lemma DeployRejectsEachAlone(owner: Address, ticketPrice: nat, salesDays: nat, revealDays: nat,
                               endDays: nat, commission: nat, ownerHash: nat, value: nat)
    ensures (ticketPrice == 0 && salesDays > 0 && revealDays > 0 && endDays > 0 && commission < 100)
      ==> Deploy(owner, ticketPrice, salesDays, revealDays, endDays, commission, ownerHash, value) == Err(TicketPriceZero)
    ensures (ticketPrice > 0 && salesDays == 0 && revealDays > 0 && endDays > 0 && commission < 100
             && value >= 10 * ticketPrice)
      ==> Deploy(owner, ticketPrice, salesDays, revealDays, endDays, commission, ownerHash, value) == Err(SalesDurationZero)
    ensures (ticketPrice > 0 && salesDays > 0 && revealDays == 0 && endDays > 0 && commission < 100
             && value >= 10 * ticketPrice)
      ==> Deploy(owner, ticketPrice, salesDays, revealDays, endDays, commission, ownerHash, value) == Err(RevealDurationZero)
    ensures (ticketPrice > 0 && salesDays > 0 && revealDays > 0 && endDays == 0 && commission < 100
             && value >= 10 * ticketPrice)
      ==> Deploy(owner, ticketPrice, salesDays, revealDays, endDays, commission, ownerHash, value) == Err(EndDurationZero)
    ensures (ticketPrice > 0 && salesDays > 0 && revealDays > 0 && endDays > 0 && commission >= 100
             && value >= 10 * ticketPrice)
      ==> Deploy(owner, ticketPrice, salesDays, revealDays, endDays, commission, ownerHash, value) == Err(CommissionTooHigh)
    ensures (ticketPrice > 0 && salesDays > 0 && revealDays > 0 && endDays > 0 && commission < 100
             && value < 10 * ticketPrice)
      ==> Deploy(owner, ticketPrice, salesDays, revealDays, endDays, commission, ownerHash, value) == Err(DepositTooSmall)
  {
  }

  /** buyTicket(hash) with `payment` wei attached. */
  function BuyTicket(st: State, caller: Address, hash: nat, payment: nat, elapsed: nat): (r: Result<Effect>)
    ensures r.Ok? <==>
      elapsed < st.config.schedule.salesDays * 86400 && payment >= st.config.ticketPrice
      && caller !in st.tickets
    ensures elapsed >= st.config.schedule.salesDays * 86400 ==> r == Err(NoMoreTicketSales)
    ensures elapsed < st.config.schedule.salesDays * 86400 && payment < st.config.ticketPrice ==>
      r == Err(NotEnoughFunds)
    ensures r.Ok? ==>
      var st' := r.value.state;
      && st'.tickets == st.tickets[caller := Ticket(hash, None, false)]
      && r.value.payouts == [] && st'.balance == st.balance + payment
      && st' == st.(tickets := st'.tickets, balance := st'.balance)
      && r.value.event == TicketBought(caller)
  {
    if CurrentPhase(st, elapsed) != Sale then Err(NoMoreTicketSales)
    else if payment < st.config.ticketPrice then Err(NotEnoughFunds)
    else if caller in st.tickets then Err(AlreadyBought)
    else
      Ok(Effect(st.(tickets := st.tickets[caller := Ticket(hash, None, false)], balance := st.balance + payment),
                [], TicketBought(caller)))
  }

  /** revealSecret(secret). */
  function RevealSecret(k: Keccak, st: State, caller: Address, secret: nat, elapsed: nat): (r: Result<Effect>)
    ensures r.Ok? <==>
      var s := st.config.schedule;
      && s.salesDays * 86400 <= elapsed < (s.salesDays + s.revealDays) * 86400
      && HasTicket(st, caller) && k.one(secret) == st.tickets[caller].hash
      && st.tickets[caller].secret.None?
    ensures elapsed < st.config.schedule.salesDays * 86400 ==> r == Err(TooEarlyToReveal)
    ensures elapsed >= (st.config.schedule.salesDays + st.config.schedule.revealDays) * 86400 ==>
      r == Err(NoMoreReveals)
    ensures CurrentPhase(st, elapsed) == Reveal && !HasTicket(st, caller) ==> r == Err(NoTicket)
    ensures CurrentPhase(st, elapsed) == Reveal && HasTicket(st, caller) && k.one(secret) != st.tickets[caller].hash ==>
      r == Err(SecretMismatch)
    ensures r.Ok? ==>
      var st' := r.value.state;
      && st'.acc == k.two(secret, st.acc)
      && st'.revealers == st.revealers + [caller]
      && st'.tickets == st.tickets[caller := st.tickets[caller].(secret := Some(secret))]
      && st' == st.(tickets := st'.tickets, revealers := st'.revealers, acc := st'.acc)
      && r.value.payouts == [] && r.value.event == SecretRevealed(caller)
  {
    var phase := CurrentPhase(st, elapsed);
    if phase == Sale then Err(TooEarlyToReveal)
    else if phase != Reveal then Err(NoMoreReveals)
    else if !HasTicket(st, caller) then Err(NoTicket)
    else if k.one(secret) != st.tickets[caller].hash then Err(SecretMismatch)
    else if st.tickets[caller].secret.Some? then Err(AlreadyRevealed)
    else
      var t := st.tickets[caller];
      Ok(Effect(st.(tickets := st.tickets[caller := t.(secret := Some(secret))],
                    revealers := st.revealers + [caller],
                    acc := k.two(secret, st.acc)),
                [], SecretRevealed(caller)))
  }

  /** endLottery(ownerSecret): the owner's secret is folded in last, the
      winner is the revealer at position `seed mod revealers`, the winner gets
      the prize and the owner the commission plus the deposit. */
  function EndLottery(k: Keccak, st: State, caller: Address, ownerSecret: nat, elapsed: nat): (r: Result<Effect>)
    ensures r.Ok? <==>
      var s := st.config.schedule;
      var total := TicketMoney(st);
      && caller == st.config.owner
      && (s.salesDays + s.revealDays) * 86400 <= elapsed < (s.salesDays + s.revealDays + s.endDays) * 86400
      && !st.ended && k.one(ownerSecret) == st.config.ownerHash && |st.revealers| > 0
      && Prize(total, st.config.commission) + Commission(total, st.config.commission) + st.config.deposit
         <= st.balance
    ensures caller != st.config.owner ==> r == Err(NotOwner)
    ensures caller == st.config.owner && elapsed < (st.config.schedule.salesDays + st.config.schedule.revealDays) * 86400 ==>
      r == Err(StillInProgress)
    ensures caller == st.config.owner && CurrentPhase(st, elapsed) == Expired ==> r == Err(TooLateToEnd)
    ensures caller == st.config.owner && CurrentPhase(st, elapsed) == End && !st.ended
            && k.one(ownerSecret) != st.config.ownerHash ==>
      r == Err(SecretMismatch)
    ensures r.Ok? ==>
      var n := |st.revealers|;
      var winner := st.revealers[WinnerIndex(k.two(ownerSecret, st.acc), n)];
      var prize := Prize(TicketMoney(st), st.config.commission);
      var ownerCut := Commission(TicketMoney(st), st.config.commission) + st.config.deposit;
      && winner in st.revealers
      && r.value.event == LotteryEnded(winner, prize)
      && r.value.payouts == [Payout(winner, prize), Payout(st.config.owner, ownerCut)]
      && r.value.state.balance + Total(r.value.payouts) == st.balance
      && r.value.state == st.(balance := r.value.state.balance, ended := true)
  {
    var c := st.config;
    var phase := CurrentPhase(st, elapsed);
    if caller != c.owner then Err(NotOwner)
    else if phase == Sale || phase == Reveal then Err(StillInProgress)
    else if phase == Expired then Err(TooLateToEnd)
    else if st.ended then Err(AlreadyEnded)
    else if k.one(ownerSecret) != c.ownerHash then Err(SecretMismatch)
    else if |st.revealers| == 0 then Err(NoReveals)
    else
      var seed := k.two(ownerSecret, st.acc);
      var winner := st.revealers[WinnerIndex(seed, |st.revealers|)];
      var prize := Prize(TicketMoney(st), c.commission);
      var ownerCut := Commission(TicketMoney(st), c.commission) + c.deposit;
      if prize + ownerCut > st.balance then Err(InsufficientBalance)
      else
        TotalOfTwo(Payout(winner, prize), Payout(c.owner, ownerCut));
        Ok(Effect(st.(balance := st.balance - prize - ownerCut, ended := true),
                  [Payout(winner, prize), Payout(c.owner, ownerCut)],
                  LotteryEnded(winner, prize)))
  }

  /** returnTicket(secret): once the owner has let the End window pass, a
      ticket holder takes the ticket price back. */
  function ReturnTicket(k: Keccak, st: State, caller: Address, secret: nat, elapsed: nat): (r: Result<Effect>)
    ensures r.Ok? <==>
      var s := st.config.schedule;
      && (s.salesDays + s.revealDays + s.endDays) * 86400 <= elapsed
      && !st.ended && HasTicket(st, caller) && k.one(secret) == st.tickets[caller].hash
      && st.config.ticketPrice <= st.balance
    ensures CurrentPhase(st, elapsed) != Expired ==> r == Err(TooEarlyToReturn)
    ensures CurrentPhase(st, elapsed) == Expired && !st.ended && !HasTicket(st, caller) ==> r == Err(NoTicket)
    ensures CurrentPhase(st, elapsed) == Expired && !st.ended && HasTicket(st, caller)
            && k.one(secret) != st.tickets[caller].hash ==>
      r == Err(SecretMismatch)
    ensures r.Ok? ==>
      var st' := r.value.state;
      && r.value.payouts == [Payout(caller, st.config.ticketPrice)]
      && st'.balance + Total(r.value.payouts) == st.balance
      && !HasTicket(st', caller) && st'.tickets.Keys == st.tickets.Keys
      && (forall a | a in st.tickets && a != caller :: st'.tickets[a] == st.tickets[a])
      && st'.tickets[caller] == st.tickets[caller].(returned := true)
      && st' == st.(tickets := st'.tickets, balance := st'.balance)
      && r.value.event == TicketReturned(caller)
  {
    if CurrentPhase(st, elapsed) != Expired then Err(TooEarlyToReturn)
    else if st.ended then Err(AlreadyEnded)
    else if !HasTicket(st, caller) then Err(NoTicket)
    else if k.one(secret) != st.tickets[caller].hash then Err(SecretMismatch)
    else if st.balance < st.config.ticketPrice then Err(InsufficientBalance)
    else
      Ok(Effect(st.(tickets := st.tickets[caller := st.tickets[caller].(returned := true)],
                    balance := st.balance - st.config.ticketPrice),
                [Payout(caller, st.config.ticketPrice)], TicketReturned(caller)))
  }
}
