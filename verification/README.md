# Commit-reveal lottery: a Dafny model

This project models a single-round ticket lottery contract (lottery-smart).
The owner deploys it with a ticket price, three durations in days (sale,
reveal, end), a commission percentage, the digest of an owner secret, and a
deposit. Buyers call `buyTicket(hash)` during the sale and pay for a ticket by
committing to the digest of a secret. They call `revealSecret(secret)` during
the reveal window. Each accepted reveal folds the secret into a running
randomness accumulator, `acc := keccak(secret, acc)`, starting from zero.
During the end window the owner calls `endLottery(ownerSecret)`. That call folds
the owner's secret in last and picks the revealer at position
`acc mod revealers`. It pays that winner `price × sold × (100 − commission) / 100`
and pays the owner `price × sold × commission / 100` plus the deposit. If the
owner lets the end window pass, each ticket holder calls `returnTicket(secret)`
and gets the ticket price back.

The contract's source is not part of this model. Its behaviour is taken from
its test suite, `test/lottery.js`. That file fixes the reason strings, the
window boundaries (days × 86400 seconds), the fold, the winner's position and
the prize. It fixes the order of a few checks (listed below); every other
check order in the model is a choice, listed under "Choices where the tests say
nothing".

Structure (one module per component):

- `hashing.dfy` (`Hashing`): Keccak is modelled as two uninterpreted functions
  passed in as a value. The module holds the accumulator fold and its
  append-one-secret law, an iterative recomputation, and the winner index.
- `phase_clock.dfy` (`PhaseClock`): the Sale/Reveal/End/Expired windows.
- `escrow.dfy` (`Escrow`): payouts, and the prize and commission split with its
  rounding bounds.
- `lottery.dfy` (`Lottery`): the state, reason strings, events, and the
  constructor and four calls as pure step functions. Each step returns either
  `Err(reason)` or the next state with its payouts and its event.
- `invariants.dfy` (`Invariants`): the reachable-state invariant and its
  preservation by every call. It also proves solvency, and that the winner is a
  revealer.
- `runs.dfy` (`Runs`): chronological sequences of transactions. A reverted call
  leaves the state unchanged. The invariant holds on every run, no payout
  exceeds the balance, and no ether is created or destroyed.
- `settlement.dfy` (`Settlement`): calls that take effect at most once.
- `scenarios.dfy` (`Scenarios`): the test suite's cases, restated over the
  suite's default deployment.

Time is an input to every call: the seconds elapsed since deployment.
Transfers and events are outputs. The caller's address and the attached value
are parameters.

## Check orders fixed by the tests

- `returnTicket` checks the phase before the ticket. The test at
  `test/lottery.js:375-384` calls it before expiry from an address without a
  ticket, and it fails with "It's too early to return tickets". Here the order
  is phase, then ticket, then secret.
- `endLottery` checks the owner before the phase: the test at
  `test/lottery.js:245-253` calls it as a stranger on day 0 and gets the
  Ownable error. It checks the phase before the owner's secret: the tests at
  `test/lottery.js:255-275` pass the secret 0 and get the phase reasons. It
  checks the owner's secret before requiring a revealer: the test at
  `test/lottery.js:277-285` ends a round with no tickets and gets "Secret
  doesn't match stored hash".

## Model

| member | source | states |
|---|---|---|
| Hashing.FoldFromSnoc | test/lottery.js:311-317 | Folding one more revealed secret onto the list equals one more `keccak(secret, acc)` step on the running value. |
| Hashing.Recompute | test/lottery.js:293-317 | Recomputes the accumulator from the ordered secrets, starting at 0 and doing one hash step per secret. The result equals the recursive fold `Accumulate`. |
| Hashing.WinnerIndex | test/lottery.js:321-323 | The winner's position is below the number of revealers and is the remainder of the seed by that number (`seed == n*(seed/n) + i`). |
| PhaseClock.PhaseAt | test/lottery.js:471-474 | Sale is `elapsed < sales×86400`, Reveal is up to `(sales+reveal)×86400`, End is up to `(sales+reveal+end)×86400`, and Expired is from then on. Each phase holds exactly on its interval. |
| PhaseClock.PhaseMonotone | test/lottery.js:471-474 | A later instant is never in an earlier phase. |
| PhaseClock.WindowsLastTheirDays | test/lottery.js:172-238 | With positive durations each window is entered and starts at its first second. Each lasts exactly its number of days × 86400 s. |
| Escrow.SplitBounds | test/lottery.js:325-336 | Prize plus commission never exceeds the ticket money, and they fall short of it by at most 1. |
| Escrow.SplitExact | test/lottery.js:325-326 | When the price is a multiple of 100, prize plus commission is exactly price × sold. |
| Lottery.Deploy | test/lottery.js:29-86 | The constructor succeeds iff price > 0, all durations > 0, commission < 100 and deposit ≥ 10 × price. On success the balance equals the deposit, there are no tickets, the accumulator is 0, and StartLottery is emitted. |
| Lottery.DeployRejectsEachAlone | test/lottery.js:29-69 | With exactly one bad parameter, deployment reverts with that parameter's own reason. |
| Lottery.BuyTicket | test/lottery.js:93-149 | A purchase succeeds iff it is in the sale window, pays at least the price, and the buyer holds no ticket yet. Outside the sale it fails with "No more ticket sales" whatever the payment. Underpaying in the sale fails with "Not enough funds to buy a ticket". On success the buyer gets an unrevealed ticket, nothing is paid out, the balance grows by exactly the payment, and BuyTicket(buyer) is emitted. |
| Lottery.RevealSecret | test/lottery.js:156-238 | A reveal succeeds iff it is in the reveal window, the caller holds a ticket, `keccak(secret)` equals the commitment, and the ticket was not yet revealed. Before the window it fails with "too early", and from its end with "No more reveals". A stranger gets "No ticket". A ticket holder in the window whose `keccak(secret)` differs from the commitment gets "Secret doesn't match stored hash". On success the accumulator becomes `keccak(secret, acc)`, the caller is appended to the reveal order, and RevealSecret(buyer) is emitted. |
| Lottery.EndLottery | test/lottery.js:245-337 | A non-owner gets the Ownable error at any time. The owner gets "still in progress" before the end window and "too late" from expiry, whatever the secret. In the end window, before the round has ended, a wrong owner secret gets "Secret doesn't match stored hash". Success needs the owner, the end window, a matching owner secret, a round not yet ended, at least one revealer, and a covering balance. The winner is `revealers[keccak(ownerSecret, acc) mod n]`. The payouts are the prize to the winner and commission plus deposit to the owner. The balance drops by exactly those payouts. |
| Lottery.ReturnTicket | test/lottery.js:344-406 | Before expiry the call fails with "too early" even without a ticket. In Expired, before the round has ended, a caller without a ticket gets "No ticket", and a ticket holder with a wrong secret gets "Secret doesn't match stored hash". Success needs expiry, a round not ended, a held ticket, a matching secret and a covering balance, whether or not the ticket was revealed. It pays exactly the ticket price back and marks the ticket returned. No other ticket changes. |
| Invariants.DeployEstablishesValid | test/lottery.js:71-86 | A freshly deployed lottery satisfies the invariant: the reveal list matches the revealed tickets, the accumulator folds the revealed secrets, and the balance covers the deposit and the held prices. |
| Invariants.ValidLater | test/lottery.js:471-474 | The passing of time alone never breaks the invariant. |
| Invariants.BuyKeepsValid | test/lottery.js:104-113 | An accepted purchase keeps the invariant, and the balance still covers the deposit and every held ticket price. |
| Invariants.RevealKeepsValid | test/lottery.js:309-316 | An accepted reveal keeps the reveal list duplicate-free and equal to the revealed tickets. The accumulator stays the fold of the revealed secrets in reveal order. |
| Invariants.EndKeepsValid | test/lottery.js:328-336 | An accepted `endLottery` keeps the invariant. |
| Invariants.ReturnKeepsValid | test/lottery.js:386-406 | An accepted refund keeps the invariant, and the balance still covers the remaining held prices. |
| Invariants.EndNeverOverdraws | test/lottery.js:334-336 | From a reachable state, `endLottery` never fails for lack of funds: prize, commission and deposit are always covered. |
| Invariants.ReturnNeverOverdraws | test/lottery.js:404-405 | From a reachable state, `returnTicket` never fails for lack of funds. |
| Invariants.WinnerIsRevealer | test/lottery.js:309-332 | The winner is `revealers[fold(revealed secrets ++ [ownerSecret]) mod n]`. The winner holds a revealed, unreturned ticket, and no unrevealed buyer is ever the winner. |
| Runs.ApplyKeepsValid | test/lottery.js:287-337 | Any transaction, accepted or reverted, keeps the invariant. |
| Runs.RunKeepsValid | test/lottery.js:287-337 | Every state a chronological run reaches satisfies the invariant. |
| Runs.RunNeverOverdraws | test/lottery.js:287-406 | No transaction of a chronological run fails for lack of funds. |
| Runs.DeployedRunIsSafe | test/lottery.js:27-406 | From deployment, every chronological run stays valid and never overdraws. |
| Runs.RunConservesEther | test/lottery.js:99-113 | The final balance plus everything paid out equals the initial balance plus every accepted payment. |
| Settlement.BuyOnce | test/lottery.js:139-149 | Documented choice (the tests never buy twice): after a purchase the same buyer cannot buy again. |
| Settlement.RevealOnce | test/lottery.js:221-238 | Documented choice (the tests never reveal twice): after a reveal the same buyer's second reveal fails, whatever the secret. |
| Settlement.EndOnce | test/lottery.js:287-337 | Documented choice (the tests never end twice): after an accepted `endLottery` every further `endLottery` fails. |
| Settlement.NoRefundAfterEnd | test/lottery.js:386-406 | Documented choice (the tests never refund after an end): after an accepted `endLottery` no ticket price is returned. |
| Settlement.ReturnOnce | test/lottery.js:386-406 | Documented choice (the tests never refund twice): after a refund the ticket is no longer held. A second refund fails, and at a later time it fails with "No ticket". |
| Scenarios.DeployScenarios | test/lottery.js:29-86 | With the suite's defaults, the six bad deployments revert with the tested strings. The default deploy succeeds, emits StartLottery, and holds the 100-ether deposit. |
| Scenarios.BuyScenarios | test/lottery.js:93-149 | The exact price is accepted and moves into the contract, one ether is refused, and a purchase on day 8 is refused. |
| Scenarios.RevealScenarios | test/lottery.js:156-238 | Day 0 is too early and day 10 too late. A stranger has no ticket, 1337 does not match the commitment to 2762, and 2762 on day 7 is accepted. |
| Scenarios.EndRefusals | test/lottery.js:245-285 | Stranger, then "still in progress" on day 0, then "too late" on day 11, then a wrong owner secret on day 10. |
| Scenarios.EndSuccessScenario | test/lottery.js:287-337 | With four sold and three revealed, the winner is buyer `1 + fold(1001,1002,1003,1337) mod 3`. That buyer receives 32 ether, and the owner receives 8 + 100 ether. |
| Scenarios.ReturnScenarios | test/lottery.js:344-406 | "No ticket" for a stranger on day 11, a wrong secret refused, "too early" on day 0, and the holder of an unrevealed ticket refunded exactly the ticket price. |

## Choices where the tests say nothing

These are explicit model decisions, not source facts. The reason strings
marked as invented do not come from the contract.

- A second purchase by the same address fails with the invented reason
  "Ticket already bought". The check order is phase, payment, then duplicate.
- A payment above the price is accepted, and the contract keeps all of it. The
  reason string "Not enough funds to buy a ticket" suggests a lower-bound check.
  The refund and the prize still count only the ticket price.
- A second reveal fails with the invented reason "Secret already revealed". It
  is checked after the secret check.
- A second `endLottery` fails with the invented reason "Lottery has already
  ended". It is checked after the window checks and before the owner's secret.
- `endLottery` with no revealer fails with the invented reason "No revealed
  tickets", because the winner's position `acc mod 0` is undefined. It is
  checked after the owner's secret.
- `returnTicket` after an accepted `endLottery` fails with "Lottery has already
  ended", checked right after the phase.
- A refund marks the ticket returned. A second refund by the same buyer then
  gets "No ticket".
- The deposit must be at least 10 × the ticket price. The tests only show that
  1 × fails and 10 × succeeds. The deposit is returned to the owner only by
  `endLottery`. If the round is never ended it stays locked; the tests do not
  show otherwise.
- A payout larger than the balance fails with "Insufficient balance", the way
  an ether transfer reverts on chain. `Runs.RunNeverOverdraws` proves this never
  happens in a chronological run.
- The constructor's checks run in the order price, sales duration, reveal
  duration, end duration, commission, deposit. The tests change one parameter
  at a time, so any order passes them; consequently `Lottery.Deploy`'s clause
  that a zero price fails with "REQ: ticketPrice > 0" whatever else is wrong is
  part of this choice.
- `buyTicket` checks the phase before the payment, and the payment before the
  duplicate. `revealSecret` checks the phase, then the ticket, then the secret,
  then a repeated reveal. Within the end window `endLottery` checks an ended
  round before the owner's secret. The tests vary one condition at a time here
  too.
- The owner's commission is `price × sold × commission / 100`, rounded down on
  its own, and not `total − prize`. The formula is taken from the test's
  expected-value expression at `test/lottery.js:326`; with the suite's values
  (40 ether, 20 percent) both formulas give 8 ether, so the tests do not tell
  them apart. The remainder of the two roundings, at most one wei, stays in the
  contract (`Escrow.SplitBounds`).
- Block-time drift is ignored. The tests' "sleep d days" is elapsed time
  exactly `d × 86400`. Window starts are inclusive and window ends exclusive.

## Left out

- Keccak-256 and ABI packing: a `Keccak` value stands for the hash, and digests
  are compared only by equality. Scenarios that need two secrets to have
  different digests state it as a precondition.
- Ownable: modelled only as `caller == owner` with its reason string. Transfer
  of ownership is not modelled.
- Ether transfers, gas and balances outside the contract: payouts are output
  values, and the attached value is an input.
- 256-bit width: amounts, secrets and the accumulator are unbounded naturals.
  The tests use values far from overflow.
- Hardhat plumbing, the BigNumber patch and the commented-out balance printer:
  these are test infrastructure, not contract behaviour.
- Event emission order relative to transfers: each accepted call has exactly
  one event.
