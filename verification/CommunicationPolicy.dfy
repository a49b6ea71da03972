/** The communication policy of the engagement worker
    (apps/execution-worker/src/engagement/communication-policy.ts), for a fixed offset from UTC. */
module CommunicationPolicy {

  datatype Purpose = EVENT_COMMUNICATION | COMMERCIAL_FOLLOW_UP

  datatype RegistrationStatus = REGISTERED | WAITLISTED | CONFIRMED | DECLINED | ATTENDED | NO_SHOW

  datatype Reason =
    | MISSING_CONSENT | LEAD_SUPPRESSED | MEETING_BOOKED | REGISTRATION_DECLINED | CADENCE_LIMIT_REACHED | QUIET_HOURS

  datatype Verdict = Allowed | Refused(reason: Reason) | RetryAt(time: int)

  datatype PolicyInput = PolicyInput(
    now: int, offsetMs: int, purpose: Purpose, deliveredCount: nat, status: RegistrationStatus,
    hasConsent: bool, isSuppressed: bool, hasMeeting: bool)

  const HOUR_MS := 3_600_000

  function Limit(p: Purpose): nat { if p.EVENT_COMMUNICATION? then 5 else 4 }

  /** The hour of the day, 0 to 23, at an instant in milliseconds. */
  function LocalHour(now: int, offsetMs: int): (h: nat)
    ensures h < 24
  {
    ((now + offsetMs) / HOUR_MS) % 24
  }

  predicate InWindow(hour: nat) { 8 <= hour < 18 }

  function HoursToWindow(hour: nat): nat
    requires hour < 24
  {
    if hour < 8 then 8 - hour else 24 - hour + 8
  }

  function NextLocalWindow(now: int, hour: nat): int
    requires hour < 24
  {
    now + HoursToWindow(hour) * HOUR_MS
  }

  function Evaluate(input: PolicyInput): Verdict {
    if !input.hasConsent then Refused(MISSING_CONSENT)
    else if input.isSuppressed then Refused(LEAD_SUPPRESSED)
    else if input.hasMeeting then Refused(MEETING_BOOKED)
    else if input.status.DECLINED? then Refused(REGISTRATION_DECLINED)
    else if input.deliveredCount >= Limit(input.purpose) then Refused(CADENCE_LIMIT_REACHED)
    else
      var hour := LocalHour(input.now, input.offsetMs);
      if !InWindow(hour) then RetryAt(NextLocalWindow(input.now, hour)) else Allowed
  }

  /** The condition that a reason speaks of. */
  predicate Applies(reason: Reason, input: PolicyInput) {
    match reason
    case MISSING_CONSENT => !input.hasConsent
    case LEAD_SUPPRESSED => input.isSuppressed
    case MEETING_BOOKED => input.hasMeeting
    case REGISTRATION_DECLINED => input.status.DECLINED?
    case CADENCE_LIMIT_REACHED => input.deliveredCount >= if input.purpose.EVENT_COMMUNICATION? then 5 else 4
    case QUIET_HOURS => !(8 <= LocalHour(input.now, input.offsetMs) < 18)
  }

  /** The order in which the reasons are looked at. */
  function Precedence(reason: Reason): nat {
    match reason
    case MISSING_CONSENT => 0
    case LEAD_SUPPRESSED => 1
    case MEETING_BOOKED => 2
    case REGISTRATION_DECLINED => 3
    case CADENCE_LIMIT_REACHED => 4
    case QUIET_HOURS => 5
  }

  ghost predicate IsFirstReason(reason: Reason, input: PolicyInput) {
    Applies(reason, input) && forall other :: Precedence(other) < Precedence(reason) ==> !Applies(other, input)
  }

  /** The reason given is the first that applies; the hour is the only one that is not final, and without any the
      message is allowed. */
  lemma FirstReasonIsGiven(input: PolicyInput, reason: Reason)
    ensures !reason.QUIET_HOURS? ==> (Evaluate(input) == Refused(reason) <==> IsFirstReason(reason, input))
    ensures Evaluate(input).RetryAt? <==> IsFirstReason(QUIET_HOURS, input)
    ensures Evaluate(input).Allowed? <==> forall other :: !Applies(other, input)
  {
    var hour := LocalHour(input.now, input.offsetMs);
    assert forall other :: Precedence(other) == Precedence(reason) ==> other == reason;
    assert Applies(QUIET_HOURS, input) <==> !InWindow(hour);
    assert Applies(MISSING_CONSENT, input) <==> !input.hasConsent;
    assert Applies(LEAD_SUPPRESSED, input) <==> input.isSuppressed;
    assert Applies(MEETING_BOOKED, input) <==> input.hasMeeting;
    assert Applies(REGISTRATION_DECLINED, input) <==> input.status.DECLINED?;
    assert Applies(CADENCE_LIMIT_REACHED, input) <==> input.deliveredCount >= Limit(input.purpose);
  }

  /** Whole hours later, the local hour has moved on by that many hours. */
  lemma HourAfter(now: int, offsetMs: int, hours: nat)
    ensures LocalHour(now + hours * HOUR_MS, offsetMs) == (LocalHour(now, offsetMs) + hours) % 24
  {
    var t := now + offsetMs;
    assert (t + hours * HOUR_MS) / HOUR_MS == t / HOUR_MS + hours;
    ModShift(t / HOUR_MS, hours);
  }

  lemma ModShift(a: int, b: nat)
    ensures (a + b) % 24 == (a % 24 + b) % 24
  {
    var q := a / 24;
    assert a == 24 * q + a % 24;
    assert (a + b) == 24 * q + (a % 24 + b);
    AddMultiple(q, a % 24 + b);
  }

  lemma AddMultiple(q: int, r: nat)
    ensures (24 * q + r) % 24 == r % 24
  {
    var s := r / 24;
    assert 24 * q + r == 24 * (q + s) + r % 24;
  }

  /** Quiet hours: the retry time is later, at most fourteen hours away, in local hour 8, the first whole
      hour that reaches the window, and the policy no longer objects to the hour when asked again then. */
  lemma RetryReachesWindow(input: PolicyInput)
    requires Evaluate(input).RetryAt?
    ensures var retry := Evaluate(input).time;
      && input.now < retry <= input.now + 14 * HOUR_MS
      && LocalHour(retry, input.offsetMs) == 8
      && (forall h :: 0 <= h < HoursToWindow(LocalHour(input.now, input.offsetMs)) ==>
            !InWindow(LocalHour(input.now + h * HOUR_MS, input.offsetMs)))
      && Evaluate(input.(now := retry)).Allowed?
  {
    var hour := LocalHour(input.now, input.offsetMs);
    var n := HoursToWindow(hour);
    HourAfter(input.now, input.offsetMs, n);
    forall h | 0 <= h < n ensures !InWindow(LocalHour(input.now + h * HOUR_MS, input.offsetMs)) {
      HourAfter(input.now, input.offsetMs, h);
    }
  }
}
