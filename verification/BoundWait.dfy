/** Waiting for a claim to be bound, against a deadline. */
module BoundWait {
  import opened Wrappers

  // Durations are in nanoseconds, as in Go.
  const POLL := 2_000_000_000

  const BOUND := "Bound"

  datatype Claim = Claim(name: string, phase: string, volumeName: string)

  datatype Volume = Volume(handle: string)

  datatype WaitError = TimedOut | Cancelled | RefetchFailed | NoVolumeName | VolumeMissing

  datatype BoundVolume = BoundVolume(pvName: string, handle: string)

  function Max0(x: int): nat { if x > 0 then x else 0 }

  /** Polls needed to cover a timeout: its length over the interval, rounded up. */
  function MaxPolls(timeout: int): nat { (Max0(timeout) + POLL - 1) / POLL }

  /** The time beyond the requested sleeps that has passed by the given number of looks at the clock. */
  function Drifts(drift: nat -> nat, looks: nat): nat {
    if looks == 0 then 0 else Drifts(drift, looks - 1) + drift(looks - 1)
  }

  /** A clock that never loses time to anything but the requested sleeps. */
  ghost predicate Punctual(drift: nat -> nat) { forall k: nat :: drift(k) == 0 }

  /** What a failure other than a failed re-fetch says about the claim. */
  predicate Explains(w: WaitError, last: Claim, volumes: map<string, Volume>) {
    match w
    case TimedOut => last.phase != BOUND
    case Cancelled => last.phase != BOUND
    case RefetchFailed => false
    case NoVolumeName => last.phase == BOUND && last.volumeName == ""
    case VolumeMissing => last.phase == BOUND && last.volumeName != "" && last.volumeName !in volumes
  }

  lemma {:induction false} PollBound(polls: nat, timeout: int)
    ensures polls > 0 && (polls - 1) * POLL < timeout ==> polls <= MaxPolls(timeout)
    ensures timeout <= polls * POLL ==> MaxPolls(timeout) <= polls
  {
  }

  /**
   The polling loop.  `drift(k)` is the time that passes, beyond the requested sleeps,
   before the k-th look at the clock, so every clock that advances at least by each
   sleep is some `drift`; `refetch(k)` is the answer to the k-th re-fetch and
   `cancelled(k)` says whether the context ends during the k-th sleep.
   */
  method WaitBound(first: Claim, timeout: int, drift: nat -> nat, cancelled: nat -> bool,
                   refetch: nat -> Option<Claim>, volumes: map<string, Volume>)
    returns (r: Result<BoundVolume, WaitError>, slept: int, polls: nat, last: Claim)
    // The time bound.
    ensures 0 <= slept <= Max0(timeout)
    ensures polls <= MaxPolls(timeout)
    ensures polls > 0 ==> (polls - 1) * 2_000_000_000 < timeout
    // The claim the outcome is about is the last one observed, and no earlier one was bound.
    ensures r == Err(RefetchFailed) <==> polls > 0 && refetch(polls - 1).None?
    ensures r != Err(RefetchFailed) ==> if polls == 0 then last == first else refetch(polls - 1) == Some(last)
    ensures polls > 0 ==> first.phase != BOUND
    ensures forall k :: 0 <= k < polls - 1 ==> refetch(k).Some? && refetch(k).value.phase != BOUND
    // Success exactly with a bound claim, a volume name and an existing volume.
    ensures r.Ok? ==> last.phase == "Bound"
    ensures r.Ok? <==> last.phase == BOUND && last.volumeName != "" && last.volumeName in volumes
    ensures r.Ok? ==> r.value == BoundVolume(last.volumeName, volumes[last.volumeName].handle)
    // Every failure is true of the last claim; with a punctual clock a timeout used every poll.
    ensures r.Err? && r.error != RefetchFailed ==> Explains(r.error, last, volumes)
    ensures r == Err(Cancelled) ==> cancelled(polls)
    ensures r == Err(TimedOut) && Punctual(drift) ==> slept == Max0(timeout) && polls == MaxPolls(timeout)
    ensures r == Err(TimedOut) && Punctual(drift) ==> timeout <= polls * 2_000_000_000
    // A timeout is reported only once the clock has passed the deadline.
    ensures r == Err(TimedOut) ==> timeout <= slept + Drifts(drift, polls + 1)
  {
    last, slept, polls := first, 0, 0;
    var now, looks := 0, 0;
    while last.phase != BOUND
      invariant 0 <= slept <= now && slept <= Max0(timeout) && slept <= polls * POLL
      invariant now >= timeout || slept == polls * POLL
      invariant looks == polls && now == slept + Drifts(drift, looks)
      invariant polls > 0 ==> (polls - 1) * POLL < timeout
      invariant Punctual(drift) ==> now == slept
      invariant if polls == 0 then last == first else refetch(polls - 1) == Some(last)
      invariant polls > 0 ==> first.phase != BOUND
      invariant forall k :: 0 <= k < polls - 1 ==> refetch(k).Some? && refetch(k).value.phase != BOUND
      decreases timeout - now
    {
      now := now + drift(looks);
      looks := looks + 1;
      var remaining := timeout - now;
      if remaining <= 0 {
        PollBound(polls, timeout);
        return Err(TimedOut), slept, polls, last;
      }
      var sleep := if POLL > remaining then remaining else POLL;
      slept := slept + sleep;
      if cancelled(polls) {
        PollBound(polls, timeout);
        return Err(Cancelled), slept, polls, last;
      }
      now := now + sleep;
      var claim := refetch(polls);
      polls := polls + 1;
      if claim.None? {
        PollBound(polls, timeout);
        return Err(RefetchFailed), slept, polls, last;
      }
      last := claim.value;
    }
    PollBound(polls, timeout);
    if last.volumeName == "" {
      return Err(NoVolumeName), slept, polls, last;
    }
    if last.volumeName !in volumes {
      return Err(VolumeMissing), slept, polls, last;
    }
    r := Ok(BoundVolume(last.volumeName, volumes[last.volumeName].handle));
  }
}
