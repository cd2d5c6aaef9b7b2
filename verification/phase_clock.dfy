/**
 The phase clock: time since deployment, in seconds, splits into the Sale,
 Reveal, End and Expired windows. Durations are configured in whole days and
 a day is 86400 seconds.
 */
module PhaseClock {

  datatype Phase = Sale | Reveal | End | Expired

  /** The three configured durations, in days. */
  datatype Schedule = Schedule(salesDays: nat, revealDays: nat, endDays: nat)

  function Seconds(days: nat): nat
  {
    days * 86400
  }

  /** First second of the Reveal window. */
  function RevealStart(s: Schedule): nat
  {
    Seconds(s.salesDays)
  }

  /** First second of the End window. */
  function EndStart(s: Schedule): nat
  {
    Seconds(s.salesDays + s.revealDays)
  }

  /** First second of the Expired window. */
  function ExpiryStart(s: Schedule): nat
  {
    Seconds(s.salesDays + s.revealDays + s.endDays)
  }

  /** The phase `elapsed` seconds after deployment. */
  function PhaseAt(s: Schedule, elapsed: nat): (p: Phase)
    ensures p == Sale <==> elapsed < s.salesDays * 86400
    ensures p == Reveal <==> s.salesDays * 86400 <= elapsed < (s.salesDays + s.revealDays) * 86400
    ensures p == End <==>
      (s.salesDays + s.revealDays) * 86400 <= elapsed < (s.salesDays + s.revealDays + s.endDays) * 86400
    ensures p == Expired <==> (s.salesDays + s.revealDays + s.endDays) * 86400 <= elapsed
  {
    if elapsed < RevealStart(s) then Sale
    else if elapsed < EndStart(s) then Reveal
    else if elapsed < ExpiryStart(s) then End
    else Expired
  }

  /** Position of a phase in the life of a round. */
  function Rank(p: Phase): nat
  {
    match p
    case Sale => 0
    case Reveal => 1
    case End => 2
    case Expired => 3
  }

  /** Time only moves a round forward: a later instant is never in an earlier
      phase. */
  lemma PhaseMonotone(s: Schedule, e1: nat, e2: nat)
    requires e1 <= e2
    ensures Rank(PhaseAt(s, e1)) <= Rank(PhaseAt(s, e2))
  {
  }

  /** With positive durations every window is entered, and each lasts exactly
      its configured number of days. */
  lemma WindowsLastTheirDays(s: Schedule)
    requires s.salesDays > 0 && s.revealDays > 0 && s.endDays > 0
    ensures PhaseAt(s, 0) == Sale
    ensures PhaseAt(s, RevealStart(s) - 1) == Sale && PhaseAt(s, RevealStart(s)) == Reveal
    ensures PhaseAt(s, EndStart(s) - 1) == Reveal && PhaseAt(s, EndStart(s)) == End
    ensures PhaseAt(s, ExpiryStart(s) - 1) == End && PhaseAt(s, ExpiryStart(s)) == Expired
    ensures RevealStart(s) == s.salesDays * 86400
    ensures EndStart(s) - RevealStart(s) == s.revealDays * 86400
    ensures ExpiryStart(s) - EndStart(s) == s.endDays * 86400
  {
  }
}
