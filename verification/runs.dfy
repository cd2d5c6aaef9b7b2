/**
 Sequences of calls against one deployed lottery.

 Each call carries the block time (seconds since deployment) at which it is
 mined; block time never decreases. A call that reverts leaves the state as it
 was.
 */
module Runs {
  import opened Hashing
  import opened PhaseClock
  import opened Escrow
  import opened Lottery
  import opened Invariants

  datatype Call =
    | Buy(buyer: Address, hash: nat, payment: nat)
    | Reveal(buyer: Address, secret: nat)
    | Close(sender: Address, ownerSecret: nat)
    | Refund(buyer: Address, secret: nat)

  /** A call mined at block time `at`. */
  datatype Tx = Tx(call: Call, at: nat)

  function Step(k: Keccak, st: State, tx: Tx): Result<Effect>
  {
    match tx.call
    case Buy(a, h, v) => BuyTicket(st, a, h, v, tx.at)
    case Reveal(a, s) => RevealSecret(k, st, a, s, tx.at)
    case Close(a, s) => EndLottery(k, st, a, s, tx.at)
    case Refund(a, s) => ReturnTicket(k, st, a, s, tx.at)
  }

  /** The state after one transaction: unchanged when the call reverts. */
  function Apply(k: Keccak, st: State, tx: Tx): State
  {
    match Step(k, st, tx)
    case Ok(e) => e.state
    case Err(_) => st
  }

  /** The state after mining `txs` in order. */
  function Run(k: Keccak, st: State, txs: seq<Tx>): State
  {
    if |txs| == 0 then st else Apply(k, Run(k, st, txs[..|txs| - 1]), txs[|txs| - 1])
  }

  /** Block times are not before `t` and never decrease. */
  ghost predicate Chronological(t: nat, txs: seq<Tx>)
  {
    && (forall i | 0 <= i < |txs| :: t <= txs[i].at)
    && (forall i, j | 0 <= i < j < |txs| :: txs[i].at <= txs[j].at)
  }

  /** The time of the last transaction, or `t` when there is none. */
  function Clock(t: nat, txs: seq<Tx>): nat
  {
    if |txs| == 0 then t else txs[|txs| - 1].at
  }

  /** One transaction, accepted or reverted, keeps the invariant. */
  lemma ApplyKeepsValid(k: Keccak, st: State, t: nat, tx: Tx)
    requires Valid(k, st, t) && t <= tx.at
    ensures Valid(k, Apply(k, st, tx), tx.at)
  {
    if Step(k, st, tx).Err? {
      ValidLater(k, st, t, tx.at);
    } else {
      match tx.call
      case Buy(a, h, v) => BuyKeepsValid(k, st, t, a, h, v, tx.at);
      case Reveal(a, s) => RevealKeepsValid(k, st, t, a, s, tx.at);
      case Close(a, s) => EndKeepsValid(k, st, t, a, s, tx.at);
      case Refund(a, s) => ReturnKeepsValid(k, st, t, a, s, tx.at);
    }
  }

  /** Every state a chronological run reaches satisfies the invariant. */
  lemma {:induction false} RunKeepsValid(k: Keccak, st: State, t: nat, txs: seq<Tx>)
    requires Valid(k, st, t) && Chronological(t, txs)
    ensures Valid(k, Run(k, st, txs), Clock(t, txs))
    ensures t <= Clock(t, txs)
    decreases |txs|
  {
    if |txs| > 0 {
      var pre := txs[..|txs| - 1];
      assert Chronological(t, pre);
      RunKeepsValid(k, st, t, pre);
      assert Clock(t, pre) <= txs[|txs| - 1].at;
      ApplyKeepsValid(k, Run(k, st, pre), Clock(t, pre), txs[|txs| - 1]);
    }
  }

  /** No transaction of a chronological run ever needs more ether than the
      contract holds: the payouts of `endLottery` and `returnTicket` are always
      covered. */
  lemma RunNeverOverdraws(k: Keccak, st: State, t: nat, txs: seq<Tx>)
    requires Valid(k, st, t) && Chronological(t, txs)
    ensures forall i | 0 <= i < |txs| :: Step(k, Run(k, st, txs[..i]), txs[i]) != Err(InsufficientBalance)
  {
    forall i | 0 <= i < |txs|
      ensures Step(k, Run(k, st, txs[..i]), txs[i]) != Err(InsufficientBalance)
    {
      var pre := txs[..i];
      assert Chronological(t, pre);
      RunKeepsValid(k, st, t, pre);
      var now := txs[i].at;
      assert Clock(t, pre) <= now;
      var s := Run(k, st, pre);
      match txs[i].call
      case Buy(_, _, _) =>
      case Reveal(_, _) =>
      case Close(a, o) => EndNeverOverdraws(k, s, Clock(t, pre), a, o, now);
      case Refund(a, x) => ReturnNeverOverdraws(k, s, Clock(t, pre), a, x, now);
    }
  }

  /** A freshly deployed lottery, run chronologically from its deployment,
      stays valid and never overdraws. */
  lemma DeployedRunIsSafe(k: Keccak, owner: Address, ticketPrice: nat, salesDays: nat, revealDays: nat,
                          endDays: nat, commission: nat, ownerHash: nat, value: nat, txs: seq<Tx>)
    requires Deploy(owner, ticketPrice, salesDays, revealDays, endDays, commission, ownerHash, value).Ok?
    requires Chronological(0, txs)
    ensures var st := Deploy(owner, ticketPrice, salesDays, revealDays, endDays, commission, ownerHash, value).value.state;
      && Valid(k, Run(k, st, txs), Clock(0, txs))
      && forall i | 0 <= i < |txs| :: Step(k, Run(k, st, txs[..i]), txs[i]) != Err(InsufficientBalance)
  {
    var st := Deploy(owner, ticketPrice, salesDays, revealDays, endDays, commission, ownerHash, value).value.state;
    DeployEstablishesValid(k, owner, ticketPrice, salesDays, revealDays, endDays, commission, ownerHash, value);
    RunKeepsValid(k, st, 0, txs);
    RunNeverOverdraws(k, st, 0, txs);
  }

  /** Ether a transaction brings into the contract: the payment of an
      accepted purchase. */
  function Inflow(k: Keccak, st: State, tx: Tx): nat
  {
    if tx.call.Buy? && Step(k, st, tx).Ok? then tx.call.payment else 0
  }

  /** Ether a transaction sends out of the contract. */
  function Outflow(k: Keccak, st: State, tx: Tx): nat
  {
    match Step(k, st, tx)
    case Ok(e) => Total(e.payouts)
    case Err(_) => 0
  }

  /** Ether received over a run. */
  function Collected(k: Keccak, st: State, txs: seq<Tx>): nat
  {
    if |txs| == 0 then 0
    else Collected(k, st, txs[..|txs| - 1]) + Inflow(k, Run(k, st, txs[..|txs| - 1]), txs[|txs| - 1])
  }

  /** Ether paid out over a run. */
  function Paid(k: Keccak, st: State, txs: seq<Tx>): nat
  {
    if |txs| == 0 then 0
    else Paid(k, st, txs[..|txs| - 1]) + Outflow(k, Run(k, st, txs[..|txs| - 1]), txs[|txs| - 1])
  }

  /** The contract's balance is what it started with, plus what it received,
      minus what it paid out: no call creates or destroys ether. */
  lemma {:induction false} RunConservesEther(k: Keccak, st: State, txs: seq<Tx>)
    ensures Run(k, st, txs).balance + Paid(k, st, txs) == st.balance + Collected(k, st, txs)
    decreases |txs|
  {
    if |txs| > 0 {
      var pre := txs[..|txs| - 1];
      RunConservesEther(k, st, pre);
      var s := Run(k, st, pre);
      var tx := txs[|txs| - 1];
      assert Apply(k, s, tx).balance + Outflow(k, s, tx) == s.balance + Inflow(k, s, tx);
    }
  }
}
