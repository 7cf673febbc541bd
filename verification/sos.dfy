/**
 * The SOS overlay (components/SOSOverlay.tsx). Pressing broadcast starts a
 * five-step countdown; each timer tick takes one off, and when it reaches zero the
 * overlay files one SOS incident for the signed-in user and closes. Closing
 * cancels the countdown; the command-center button starts a call to ADMIN.
 * `isOpen` is the host screen's flag that the overlay's `onClose` clears. The
 * one-second timer is the `Tick` event; the time text and the id are parameters.
 */
module Sos {
  import opened Common
  import opened Domain
  import Incidents
  import Calls

  const CountdownStart: int := 5

  /** The report `handleSOS` files for `user`. */
  function SosReport(user: User, time: string): (r: Incidents.IncidentReport)
    ensures r.kind == "SOS Distress Signal" && r.caller == user.name && r.contact == user.email
    ensures r.timeReported == time && r.distance == Some("0.1 km") && r.coordinates.None?
    ensures r.location == "Current GPS Location (Simulated)"
  {
    Incidents.IncidentReport("SOS Distress Signal", "Current GPS Location (Simulated)", Some("0.1 km"), time,
                             user.name, user.email, None)
  }

  /** Does this tick reach zero with someone signed in, so that one report is filed? */
  predicate TickReports(countdown: Option<int>, signedIn: bool) {
    countdown == Some(1) && signedIn
  }

  /**
   * The countdown after one tick. A positive count drops by one; reaching zero runs
   * `handleSOS`, which clears it when someone is signed in and otherwise returns
   * early, leaving it at zero with no timer left to move it.
   */
  function NextCountdown(countdown: Option<int>, signedIn: bool): Option<int> {
    match countdown
    case None => None
    case Some(n) =>
      if n > 1 then Some(n - 1)
      else if n == 1 then (if signedIn then None else Some(0))
      else countdown
  }

  /** The countdown after `k` ticks, and how many reports they filed. */
  function Ticks(countdown: Option<int>, signedIn: bool, k: nat): (Option<int>, nat)
    decreases k
  {
    if k == 0 then (countdown, 0)
    else
      var rest := Ticks(NextCountdown(countdown, signedIn), signedIn, k - 1);
      (rest.0, rest.1 + if TickReports(countdown, signedIn) then 1 else 0)
  }

  /**
   * From a count of `n`, the first `n - 1` ticks file nothing, the `n`-th files exactly
   * one report and clears the countdown, and later ticks file nothing more.
   */
  lemma {:induction false} CountdownReportsOnce(n: nat, k: nat)
    requires n >= 1
    ensures Ticks(Some(n), true, k) == if k < n then (Some(n - k), 0) else (None, 1)
    decreases k
  {
    if k > 0 {
      if n > 1 {
        CountdownReportsOnce(n - 1, k - 1);
      } else {
        NoneStays(k - 1);
      }
    }
  }

  lemma {:induction false} NoneStays(k: nat)
    ensures Ticks(None, true, k) == (None, 0)
    decreases k
  {
    if k > 0 {
      NoneStays(k - 1);
    }
  }

  /** Starting from the broadcast button: five ticks, one report. */
  lemma BroadcastReportsAfterFiveTicks()
    ensures Ticks(Some(CountdownStart), true, 4).1 == 0
    ensures Ticks(Some(CountdownStart), true, 5) == (None, 1)
  {
    CountdownReportsOnce(5, 4);
    CountdownReportsOnce(5, 5);
  }

  /** With nobody signed in the countdown never files a report and stops at zero. */
  lemma {:induction false} SignedOutNeverReports(n: nat, k: nat)
    requires n >= 1
    ensures Ticks(Some(n), false, k) == if k < n then (Some(n - k), 0) else (Some(0), 0)
    decreases k
  {
    if k > 0 {
      if n > 1 {
        SignedOutNeverReports(n - 1, k - 1);
      } else {
        ZeroStays(k - 1);
      }
    }
  }

  lemma {:induction false} ZeroStays(k: nat)
    ensures Ticks(Some(0), false, k) == (Some(0), 0)
    decreases k
  {
    if k > 0 {
      ZeroStays(k - 1);
    }
  }

  class SosOverlay {
    var countdown: Option<int>
    var isOpen: bool

    constructor ()
      ensures countdown.None? && !isOpen
    {
      countdown := None;
      isOpen := false;
    }

    /** The host screen's SOS button. */
    method Open()
      modifies this
      ensures isOpen && countdown == old(countdown)
    {
      isOpen := true;
    }

    /** The broadcast button: (re)starts the countdown at five, even mid-countdown. */
    method PressBroadcast()
      modifies this
      ensures countdown == Some(CountdownStart) && isOpen == old(isOpen)
    {
      countdown := Some(5);
    }

    /** `handleSOS`: with a signed-in user, file one SOS incident, clear the countdown and close. */
    method HandleSos(user: Option<User>, registry: Incidents.IncidentRegistry, newId: string, time: string)
      modifies this, registry
      ensures user.None? ==> countdown == old(countdown) && isOpen == old(isOpen)
                             && registry.incidents == old(registry.incidents)
      ensures user.Some? ==> countdown.None? && !isOpen
                             && registry.incidents == [Incidents.Filed(SosReport(user.value, time), newId)]
                                                      + old(registry.incidents)
    {
      if user.None? {
        return;
      }
      registry.ReportIncident(SosReport(user.value, time), newId);
      countdown := None;
      isOpen := false;
    }

    /** One second of the countdown timer, followed by the effect that fires at zero. */
    method Tick(user: Option<User>, registry: Incidents.IncidentRegistry, newId: string, time: string)
      modifies this, registry
      ensures countdown == NextCountdown(old(countdown), user.Some?)
      ensures TickReports(old(countdown), user.Some?) ==>
                !isOpen && registry.incidents == [Incidents.Filed(SosReport(user.value, time), newId)]
                                                 + old(registry.incidents)
      ensures !TickReports(old(countdown), user.Some?) ==>
                isOpen == old(isOpen) && registry.incidents == old(registry.incidents)
    {
      if countdown.Some? && countdown.value > 0 {
        countdown := Some(countdown.value - 1);
        if countdown.value == 0 {
          HandleSos(user, registry, newId, time);
        }
      }
    }

    /** The close button: cancels the countdown, so no report is filed, and closes. */
    method Close()
      modifies this
      ensures countdown.None? && !isOpen
    {
      countdown := None;
      isOpen := false;
    }

    /**
     * `handleCallCommandCenter`: call the ADMIN role and close. The countdown is not
     * touched, so one already running keeps going after the overlay closes.
     */
    method CallCommandCenter(user: Option<User>, call: Calls.CallSession)
      modifies this, call
      ensures call.callState == Calls.Initiate(old(call.callState), user, Admin)
      ensures !isOpen && countdown == old(countdown)
    {
      call.InitiateCall(user, Admin);
      isOpen := false;
    }
  }
}
