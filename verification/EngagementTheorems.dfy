/** Safety of whole engagement runs: how often and to whom anything is mailed. */
module EngagementTheorems {
  import opened CommunicationPolicy
  import opened Engagement
  import opened EngagementCrm
  import opened EngagementCadence

  // ---- Idempotency keys bound the cadence ----

  ghost function OutboundFor(c: Cadence, e: nat, l: nat, p: Purpose): set<nat> {
    set m | m in c.messages && c.messages[m].origin.Some? && c.messages[m].event == e
      && c.messages[m].lead == l && c.messages[m].purpose == p
  }

  const EVENT_STEPS: set<CadenceStep> := {WELCOME, D14, D7, D3, D1}
  const ATTENDEE_STEPS: set<CadenceStep> := {ATTENDEE_H2, ATTENDEE_D2, ATTENDEE_D7}
  const NO_SHOW_STEPS: set<CadenceStep> := {NO_SHOW_D1, NO_SHOW_D3, NO_SHOW_D7}

  /** The steps that a registration can have messages for, by the follow-ups it has. */
  function StepsOf(actions: map<ActionKey, Action>, r: nat, p: Purpose): set<CadenceStep> {
    if p.EVENT_COMMUNICATION? then EVENT_STEPS
    else
      (if HasKind(actions, r, ATTENDED) then ATTENDEE_STEPS else {})
      + (if HasKind(actions, r, NO_SHOW) then NO_SHOW_STEPS else {})
  }

  /** Five event messages, and three commercial ones for each kind of follow-ups. */
  function MostMessages(actions: map<ActionKey, Action>, r: nat, p: Purpose): (n: nat)
    ensures p.COMMERCIAL_FOLLOW_UP? && OneKind(actions, r) ==> n <= 3
    ensures n <= if p.EVENT_COMMUNICATION? then 5 else 6
  {
    if p.EVENT_COMMUNICATION? then 5
    else (if HasKind(actions, r, ATTENDED) then 3 else 0) + (if HasKind(actions, r, NO_SHOW) then 3 else 0)
  }

  lemma StepsOfSize(actions: map<ActionKey, Action>, r: nat, p: Purpose)
    ensures |StepsOf(actions, r, p)| <= MostMessages(actions, r, p)
  {
    assert |ATTENDEE_STEPS| == 3 && |NO_SHOW_STEPS| == 3 && ATTENDEE_STEPS !! NO_SHOW_STEPS;
  }

  lemma ScheduledStep(actions: map<ActionKey, Action>, r: nat, step: CadenceStep)
    requires CadenceKey(r, step) in actions
    ensures step in StepsOf(actions, r, StepPurpose(step))
  {
    if step in ATTENDEE_STEPS { assert step in PostEventSteps(ATTENDED); }
    if step in NO_SHOW_STEPS { assert step in PostEventSteps(NO_SHOW); }
    match step { case _ => }
  }

  /** Messages with different steps are no more than the steps. */
  lemma {:induction false} NoMoreThanSteps(messages: map<nat, Message>, ms: set<nat>, steps: set<CadenceStep>)
    requires forall m :: m in ms ==>
      && m in messages && messages[m].origin.Some?
      && messages[m].origin.value.CadenceKey? && messages[m].origin.value.step in steps
    requires forall m, n :: m in ms && n in ms ==>
      messages[m].origin.value.step == messages[n].origin.value.step ==> m == n
    ensures |ms| <= |steps|
    decreases ms
  {
    if ms != {} {
      var m :| m in ms;
      NoMoreThanSteps(messages, ms - {m}, steps - {messages[m].origin.value.step});
    }
  }

  lemma OutboundFacts(s: State, r: nat, p: Purpose, m: nat)
    requires Inv(s) && r in s.crm.registrations
    requires m in OutboundFor(s.cadence, s.crm.registrations[r].event, s.crm.registrations[r].lead, p)
    ensures var key := s.cadence.messages[m].origin.value;
      && key.CadenceKey? && key.registration == r
      && key in s.cadence.actions && s.cadence.actions[key].status.COMPLETED?
      && key.step in StepsOf(s.cadence.actions, r, p)
  {
    var c := s.cadence;
    assert MessageOk(s.crm.registrations, c.actions, m, c.messages[m]);
    var key := c.messages[m].origin.value;
    assert Carries(c.messages, c.emails, c.dispatchers, m, key);
    ScheduledStep(c.actions, key.registration, key.step);
  }

  lemma OutboundDiffer(s: State, r: nat, p: Purpose, m: nat, n: nat)
    requires Inv(s) && r in s.crm.registrations
    requires m in OutboundFor(s.cadence, s.crm.registrations[r].event, s.crm.registrations[r].lead, p)
    requires n in OutboundFor(s.cadence, s.crm.registrations[r].event, s.crm.registrations[r].lead, p)
    requires s.cadence.messages[m].origin.value.CadenceKey? && s.cadence.messages[n].origin.value.CadenceKey?
    requires s.cadence.messages[m].origin.value.step == s.cadence.messages[n].origin.value.step
    ensures m == n
  {
    OutboundFacts(s, r, p, m);
    OutboundFacts(s, r, p, n);
    var c := s.cadence;
    assert Carries(c.messages, c.emails, c.dispatchers, m, c.messages[m].origin.value);
    assert Carries(c.messages, c.emails, c.dispatchers, n, c.messages[m].origin.value);
  }

  /** Messages of a registration, leaving out those of one step. */
  lemma BoundWithout(s: State, r: nat, p: Purpose, ms: set<nat>, steps: set<CadenceStep>)
    requires Inv(s) && r in s.crm.registrations
    requires ms <= OutboundFor(s.cadence, s.crm.registrations[r].event, s.crm.registrations[r].lead, p)
    requires forall m :: m in ms && s.cadence.messages[m].origin.value.CadenceKey? ==>
      s.cadence.messages[m].origin.value.step in steps
    ensures |ms| <= |steps|
  {
    forall m | m in ms ensures s.cadence.messages[m].origin.value.CadenceKey? { OutboundFacts(s, r, p, m); }
    var xs := s.cadence.messages;
    forall m, n | m in ms && n in ms && xs[m].origin.value.step == xs[n].origin.value.step
      ensures m == n
    {
      OutboundDiffer(s, r, p, m, n);
    }
    NoMoreThanSteps(s.cadence.messages, ms, steps);
  }

  lemma OutboundIsBounded(s: State, r: nat, p: Purpose)
    requires Inv(s) && r in s.crm.registrations
    ensures |OutboundFor(s.cadence, s.crm.registrations[r].event, s.crm.registrations[r].lead, p)|
      <= MostMessages(s.cadence.actions, r, p)
  {
    var reg := s.crm.registrations[r];
    var ms := OutboundFor(s.cadence, reg.event, reg.lead, p);
    forall m | m in ms && s.cadence.messages[m].origin.value.CadenceKey?
      ensures s.cadence.messages[m].origin.value.step in StepsOf(s.cadence.actions, r, p)
    {
      OutboundFacts(s, r, p, m);
    }
    BoundWithout(s, r, p, ms, StepsOf(s.cadence.actions, r, p));
    StepsOfSize(s.cadence.actions, r, p);
  }

  /** Across redelivered enrichment commands, status changes from readings of any age, retries and crashes, a
      registration is written at most five event messages, and six commercial ones: three while it has one kind
      of follow-ups, which it has exactly when no operator's change finds the other kind scheduled. */
  lemma CadenceIsBounded(steps: seq<Step>, r: nat, p: Purpose)
    requires r in Run(INITIAL, steps).crm.registrations
    ensures var s := Run(INITIAL, steps); var reg := s.crm.registrations[r];
      var written := |OutboundFor(s.cadence, reg.event, reg.lead, p)|;
      && written <= (if p.EVENT_COMMUNICATION? then 5 else 6)
      && (p.COMMERCIAL_FOLLOW_UP? && NeverMixes(INITIAL, steps, r) ==> written <= 3)
  {
    RunKeepsInv(steps);
    OneKindExactly(steps, r);
    OutboundIsBounded(Run(INITIAL, steps), r, p);
  }

  /** Deciding a cadence action never runs into the message limit: the action has no message yet. */
  lemma DecisionIsUnderLimit(s: State, d: nat, r: nat, step: CadenceStep)
    requires Inv(s) && PhaseOf(s.cadence, d) == Claimed(CadenceKey(r, step)) && r in s.crm.registrations
    requires StepPurpose(step).EVENT_COMMUNICATION? || OneKind(s.cadence.actions, r)
    ensures var reg := s.crm.registrations[r];
      DeliveredCount(s.cadence, reg.event, reg.lead, StepPurpose(step)) < Limit(StepPurpose(step))
  {
    var reg, p := s.crm.registrations[r], StepPurpose(step);
    var ms := OutboundFor(s.cadence, reg.event, reg.lead, p);
    var key := CadenceKey(r, step);
    assert key in s.cadence.actions && !s.cadence.actions[key].status.COMPLETED?;
    ScheduledStep(s.cadence.actions, r, step);
    var others := StepsOf(s.cadence.actions, r, p) - {step};
    forall m | m in ms && s.cadence.messages[m].origin.value.CadenceKey?
      ensures s.cadence.messages[m].origin.value.step in others
    {
      OutboundFacts(s, r, p, m);
    }
    BoundWithout(s, r, p, ms, others);
    StepsOfSize(s.cadence.actions, r, p);
    SubsetSize(Delivered(s.cadence, reg.event, reg.lead, p), ms);
  }

  /** Neither does checking a send: the message itself has not gone out yet. */
  lemma SendIsUnderLimit(s: State, d: nat, m: nat)
    requires Inv(s) && PhaseOf(s.cadence, d) == Claimed(SendKey(m))
    requires m in s.cadence.messages && s.cadence.messages[m].origin.Some?
    requires
      || s.cadence.messages[m].purpose.EVENT_COMMUNICATION?
      || OneKind(s.cadence.actions, s.cadence.messages[m].registration)
    ensures var x := s.cadence.messages[m];
      DeliveredCount(s.cadence, x.event, x.lead, x.purpose) < Limit(x.purpose)
  {
    var x := s.cadence.messages[m];
    assert MessageOk(s.crm.registrations, s.cadence.actions, m, x);
    ClaimedIsNotOut(s.crm.registrations, s.cadence, d, m);
    OutboundIsBounded(s, x.registration, x.purpose);
    LeaveOneOut(s.cadence, m);
  }

  lemma LeaveOneOut(c: Cadence, m: nat)
    requires m in c.messages && c.messages[m].origin.Some? && !WentOut(c.messages[m].status)
    ensures var x := c.messages[m];
      DeliveredCount(c, x.event, x.lead, x.purpose) < |OutboundFor(c, x.event, x.lead, x.purpose)|
  {
    var x := c.messages[m];
    var ms := OutboundFor(c, x.event, x.lead, x.purpose);
    SubsetSize(Delivered(c, x.event, x.lead, x.purpose), ms - {m});
  }

  /** Below the limit, the policy does not give the limit as its reason. */
  lemma UnderLimit(s: State, e: nat, l: nat, p: Purpose, r: nat, meeting: bool, now: int)
    requires r in s.crm.registrations && e in s.crm.events && DeliveredCount(s.cadence, e, l, p) < Limit(p)
    ensures Judgement(s, e, l, p, r, meeting, now) != Refused(CADENCE_LIMIT_REACHED)
  {
  }

  /** CADENCE_LIMIT_REACHED never arises when an event step is decided, nor a follow-up of a registration that has
      one kind of them. */
  lemma DecisionsAreNotLimited(steps: seq<Step>, d: nat, r: nat, step: CadenceStep, now: int)
    requires StepPurpose(step).EVENT_COMMUNICATION? || NeverMixes(INITIAL, steps, r)
    requires var s := Run(INITIAL, steps);
      && PhaseOf(s.cadence, d) == Claimed(CadenceKey(r, step))
      && r in s.crm.registrations && s.crm.registrations[r].event in s.crm.events
    ensures var s := Run(INITIAL, steps); var reg := s.crm.registrations[r];
      Judgement(s, reg.event, reg.lead, StepPurpose(step), r, r in s.crm.meetings, now)
        != Refused(CADENCE_LIMIT_REACHED)
  {
    RunKeepsInv(steps);
    OneKindExactly(steps, r);
    var s := Run(INITIAL, steps);
    DecisionIsUnderLimit(s, d, r, step);
    var reg := s.crm.registrations[r];
    UnderLimit(s, reg.event, reg.lead, StepPurpose(step), r, r in s.crm.meetings, now);
  }

  /** Nor when a send is checked. */
  lemma SendsAreNotLimited(steps: seq<Step>, d: nat, m: nat, now: int)
    requires var s := Run(INITIAL, steps);
      && PhaseOf(s.cadence, d) == Claimed(SendKey(m))
      && m in s.cadence.messages && s.cadence.messages[m].origin.Some?
      && s.cadence.messages[m].registration in s.crm.registrations && s.cadence.messages[m].event in s.crm.events
    requires var x := Run(INITIAL, steps).cadence.messages[m];
      x.purpose.EVENT_COMMUNICATION? || NeverMixes(INITIAL, steps, x.registration)
    ensures var s := Run(INITIAL, steps); var x := s.cadence.messages[m];
      Judgement(s, x.event, x.lead, x.purpose, x.registration, MeetingFor(s.crm, x.event, x.lead), now)
        != Refused(CADENCE_LIMIT_REACHED)
  {
    RunKeepsInv(steps);
    var s := Run(INITIAL, steps);
    var x := s.cadence.messages[m];
    OneKindExactly(steps, x.registration);
    SendIsUnderLimit(s, d, m);
    UnderLimit(s, x.event, x.lead, x.purpose, x.registration, MeetingFor(s.crm, x.event, x.lead), now);
  }

  // ---- Sending has its effect once ----

  /** Every outbound message has its send action, completed exactly when the message is SENT, DELIVERED or
      BOUNCED; and then the provider has accepted it. */
  lemma SendActionTellsTheStatus(steps: seq<Step>, m: nat)
    requires m in Run(INITIAL, steps).cadence.messages && Run(INITIAL, steps).cadence.messages[m].origin.Some?
    ensures var c := Run(INITIAL, steps).cadence;
      && SendKey(m) in c.actions
      && (c.actions[SendKey(m)].status.COMPLETED? <==> WentOut(c.messages[m].status))
      && (WentOut(c.messages[m].status) ==> m in c.emails)
  {
    RunKeepsInv(steps);
    var s := Run(INITIAL, steps);
    assert MessageOk(s.crm.registrations, s.cadence.actions, m, s.cadence.messages[m]);
  }

  /** With a provider that sends one copy per message id, every step of every registration's cadence reaches the
      lead at most once, even when dispatchers crash between sending and recording and are replaced. Leases are
      taken to outlast the work of a live dispatcher. */
  lemma OneMailPerStep(steps: seq<Step>, m: nat, n: nat)
    requires m in Run(INITIAL, steps).cadence.emails && n in Run(INITIAL, steps).cadence.emails
    requires Run(INITIAL, steps).cadence.emails[m].origin == Run(INITIAL, steps).cadence.emails[n].origin
    ensures m == n
  {
    RunKeepsInv(steps);
    var c := Run(INITIAL, steps).cadence;
    assert Carries(c.messages, c.emails, c.dispatchers, m, c.emails[m].origin);
    assert Carries(c.messages, c.emails, c.dispatchers, n, c.emails[m].origin);
  }

  // ---- Nothing is mailed against a refusal ----

  ghost function MailTo(c: Cadence, l: nat, p: Purpose): set<nat> {
    set m | m in c.emails && c.emails[m].lead == l && c.emails[m].purpose == p
  }

  ghost function MailFor(c: Cadence, r: nat, p: Purpose): set<nat> {
    set m | m in c.emails && c.emails[m].registration == r && c.emails[m].purpose == p
  }

  /** No dispatcher has the go-ahead for a message to this lead and purpose that is not out already. */
  ghost predicate NothingUnderWayTo(c: Cadence, l: nat, p: Purpose) {
    forall d :: (d in c.dispatchers && c.dispatchers[d].Sending?
                 && c.dispatchers[d].email.lead == l && c.dispatchers[d].email.purpose == p)
      ==> c.dispatchers[d].message in c.emails
  }

  ghost predicate NothingUnderWayFor(c: Cadence, r: nat, p: Purpose) {
    forall d :: (d in c.dispatchers && c.dispatchers[d].Sending?
                 && c.dispatchers[d].email.registration == r && c.dispatchers[d].email.purpose == p)
      ==> c.dispatchers[d].message in c.emails
  }

  ghost predicate MailsNothing(c: Cadence, c': Cadence) {
    c'.emails == c.emails && c'.dispatchers == c.dispatchers
  }

  lemma RepliesMailNothing(
      s: State, r: nat, i: Intent, m: nat, providerId: Option<string>, read: RegistrationStatus)
    ensures MailsNothing(s.cadence, RecordInbound(s, r, i, m, providerId, read).cadence)
  {
  }

  lemma LinksMailNothing(s: State, t: nat, now: int)
    ensures MailsNothing(s.cadence, ConsumePublicAction(s, t, now).cadence)
  {
  }

  lemma AdmissionsMailNothing(s: State, op: Operation)
    requires Admits(op)
    ensures MailsNothing(s.cadence, ApplyApi(s, op).cadence)
  {
    match op {
      case Inbound(r, i, m, id, read) => RepliesMailNothing(s, r, i, m, id, read);
      case PublicAction(t, now) => LinksMailNothing(s, t, now);
      case _ =>
    }
  }

  lemma OperationsMailNothing(s: State, op: Operation)
    ensures MailsNothing(s.cadence, ApplyApi(s, op).cadence)
  {
    if Admits(op) { AdmissionsMailNothing(s, op); }
  }

  /** The email is to a lead and about a registration that the state allows writing to. */
  ghost predicate MayMail(crm: Crm, x: Email) {
    !Blocked(crm, x.lead, x.purpose) && x.registration in crm.registrations && !Doomed(crm, x.registration, x.purpose)
  }

  lemma AllowedMeansFree(s: State, m: nat, now: int)
    requires Inv(s) && m in s.cadence.messages && s.cadence.messages[m].origin.Some?
    requires var x := s.cadence.messages[m];
      && x.registration in s.crm.registrations && x.event in s.crm.events
      && Judgement(s, x.event, x.lead, x.purpose, x.registration, MeetingFor(s.crm, x.event, x.lead), now).Allowed?
    ensures var x := s.cadence.messages[m];
      MayMail(s.crm, Email(x.event, x.lead, x.registration, x.purpose, x.origin.value))
  {
    var x := s.cadence.messages[m];
    assert MessageOk(s.crm.registrations, s.cadence.actions, m, x);
    assert x.registration in s.crm.meetings ==> MeetingFor(s.crm, x.event, x.lead);
  }

  /** A check changes no mail and no other dispatcher, and gives the go-ahead only for an email that may be sent. */
  ghost predicate ChecksOnly(crm: Crm, c: Cadence, c': Cadence, d: nat) {
    && c'.emails == c.emails
    && (forall f :: f in c'.dispatchers && f != d ==> f in c.dispatchers && c'.dispatchers[f] == c.dispatchers[f])
    && (d in c'.dispatchers && c'.dispatchers[d].Sending? ==>
          || (d in c.dispatchers && c'.dispatchers[d] == c.dispatchers[d])
          || MayMail(crm, c'.dispatchers[d].email))
  }

  lemma VerdictChecksOnly(crm: Crm, c: Cadence, d: nat, m: nat, v: Verdict)
    requires m in c.messages && SendKey(m) in c.actions && c.messages[m].origin.Some?
    requires v.Allowed? ==> var x := c.messages[m];
      MayMail(crm, Email(x.event, x.lead, x.registration, x.purpose, x.origin.value))
    ensures ChecksOnly(crm, c, AfterSendVerdict(c, d, m, v), d)
  {
  }

  lemma GoAheadOnlyWhenFree(s: State, d: nat, now: int)
    requires Inv(s)
    ensures ChecksOnly(s.crm, s.cadence, JudgeSend(s, d, now).cadence, d)
  {
    match PhaseOf(s.cadence, d) {
      case Claimed(SendKey(m)) =>
        if JudgeSend(s, d, now) != s {
          var x := s.cadence.messages[m];
          var v := Judgement(s, x.event, x.lead, x.purpose, x.registration, MeetingFor(s.crm, x.event, x.lead), now);
          if v.Allowed? { AllowedMeansFree(s, m, now); }
          VerdictChecksOnly(s.crm, s.cadence, d, m, v);
        }
      case _ =>
    }
  }

  /** A move other than a check hands over what dispatcher `d` had under way, or changes no mail. */
  ghost predicate HandsOverOnly(c: Cadence, c': Cadence, d: nat) {
    && (forall m :: m in c.emails ==> m in c'.emails && c'.emails[m] == c.emails[m])
    && (forall m :: m in c'.emails && m !in c.emails ==>
          && d in c.dispatchers && c.dispatchers[d].Sending?
          && m == c.dispatchers[d].message && c'.emails[m] == c.dispatchers[d].email)
    && (forall f :: f in c'.dispatchers && c'.dispatchers[f].Sending? ==>
          f in c.dispatchers && c'.dispatchers[f] == c.dispatchers[f])
  }

  lemma MoveHandsOverOnly(s: State, d: nat, move: Move)
    requires !move.CheckSend?
    ensures HandsOverOnly(s.cadence, ApplyMove(s, d, move).cadence, d)
  {
    match move { case _ => }
  }

  ghost predicate NoNewMailTo(c: Cadence, c': Cadence, l: nat, p: Purpose) {
    NothingUnderWayTo(c', l, p) && MailTo(c', l, p) == MailTo(c, l, p)
  }

  ghost predicate NoNewMailFor(c: Cadence, c': Cadence, r: nat, p: Purpose) {
    NothingUnderWayFor(c', r, p) && MailFor(c', r, p) == MailFor(c, r, p)
  }

  lemma CheckMailsNothing(crm: Crm, c: Cadence, c': Cadence, d: nat, l: nat, r: nat, p: Purpose)
    requires ChecksOnly(crm, c, c', d)
    ensures Blocked(crm, l, p) && NothingUnderWayTo(c, l, p) ==> NoNewMailTo(c, c', l, p)
    ensures r in crm.registrations && Doomed(crm, r, p) && NothingUnderWayFor(c, r, p) ==> NoNewMailFor(c, c', r, p)
  {
  }

  lemma HandOverMailsNothing(c: Cadence, c': Cadence, d: nat, l: nat, r: nat, p: Purpose)
    requires HandsOverOnly(c, c', d)
    ensures NothingUnderWayTo(c, l, p) ==> NoNewMailTo(c, c', l, p)
    ensures NothingUnderWayFor(c, r, p) ==> NoNewMailFor(c, c', r, p)
  {
  }

  lemma StepMailsNothing(s: State, step: Step, l: nat, r: nat, p: Purpose)
    requires Inv(s)
    ensures Blocked(s.crm, l, p) && NothingUnderWayTo(s.cadence, l, p) ==>
      NoNewMailTo(s.cadence, Apply(s, step).cadence, l, p)
    ensures r in s.crm.registrations && Doomed(s.crm, r, p) && NothingUnderWayFor(s.cadence, r, p) ==>
      NoNewMailFor(s.cadence, Apply(s, step).cadence, r, p)
  {
    var c' := Apply(s, step).cadence;
    match step {
      case Api(op) =>
        OperationsMailNothing(s, op);
        HandOverMailsNothing(s.cadence, c', 0, l, r, p);
      case Dispatcher(d, move) =>
        if move.CheckSend? {
          GoAheadOnlyWhenFree(s, d, move.now);
          CheckMailsNothing(s.crm, s.cadence, c', d, l, r, p);
        } else {
          MoveHandsOverOnly(s, d, move);
          HandOverMailsNothing(s.cadence, c', d, l, r, p);
        }
    }
  }

  /** Suppression is permanent: once a lead is blocked for a purpose, whether by unsubscribing, an inbound
      opt-out, withdrawal, a bounce or complaint, or erasure, nothing more is mailed to it for that purpose,
      whatever happens afterwards; only a send that had its go-ahead before may still arrive. */
  lemma {:induction false} BlockedLeadsGetNoMail(s: State, steps: seq<Step>, l: nat, p: Purpose)
    requires Inv(s) && Blocked(s.crm, l, p) && NothingUnderWayTo(s.cadence, l, p)
    ensures var t := Run(s, steps);
      && Inv(t) && Blocked(t.crm, l, p) && NothingUnderWayTo(t.cadence, l, p)
      && MailTo(t.cadence, l, p) == MailTo(s.cadence, l, p)
  {
    if steps != [] {
      BlockedLeadsGetNoMail(s, steps[..|steps| - 1], l, p);
      var t := Run(s, steps[..|steps| - 1]);
      StepKeepsInv(t, steps[|steps| - 1]);
      StepIsOnward(t, steps[|steps| - 1]);
      StepMailsNothing(t, steps[|steps| - 1], l, 0, p);
    }
  }

  lemma RunOne(s: State, step: Step)
    ensures Run(s, [step]) == Apply(s, step)
  {
    assert [step][..0] == [];
    assert Run(s, []) == s;
  }

  /** The exception is real: a send that has its go-ahead arrives. */
  lemma UnderWayArrives(s: State, d: nat)
    requires d in s.cadence.dispatchers && s.cadence.dispatchers[d].Sending?
    requires s.cadence.dispatchers[d].message !in s.cadence.emails
    ensures var x := s.cadence.dispatchers[d].email;
      MailTo(Run(s, [Dispatcher(d, Send)]).cadence, x.lead, x.purpose) != MailTo(s.cadence, x.lead, x.purpose)
  {
    RunOne(s, Dispatcher(d, Send));
    var c := HandOver(s.cadence, d);
    var x := s.cadence.dispatchers[d].email;
    assert s.cadence.dispatchers[d].message in MailTo(c, x.lead, x.purpose);
  }

  ghost predicate NeverMailed(s: State, l: nat, p: Purpose) {
    forall steps :: MailTo(Run(s, steps).cadence, l, p) == MailTo(s.cadence, l, p)
  }

  lemma NeverMailedMeansNothingUnderWay(s: State, l: nat, p: Purpose)
    requires NeverMailed(s, l, p)
    ensures NothingUnderWayTo(s.cadence, l, p)
  {
    var c := s.cadence;
    forall d | d in c.dispatchers && c.dispatchers[d].Sending?
      && c.dispatchers[d].email.lead == l && c.dispatchers[d].email.purpose == p
      ensures c.dispatchers[d].message in c.emails
    {
      if c.dispatchers[d].message !in c.emails { UnderWayArrives(s, d); }
    }
  }

  /** So a blocked lead is safe from all future runs exactly when nothing is under way to it. */
  lemma BlockedIsSafeExactly(s: State, l: nat, p: Purpose)
    requires Inv(s) && Blocked(s.crm, l, p)
    ensures NothingUnderWayTo(s.cadence, l, p) <==> NeverMailed(s, l, p)
  {
    if NothingUnderWayTo(s.cadence, l, p) {
      forall steps ensures MailTo(Run(s, steps).cadence, l, p) == MailTo(s.cadence, l, p) {
        BlockedLeadsGetNoMail(s, steps, l, p);
      }
    }
    if NeverMailed(s, l, p) { NeverMailedMeansNothingUnderWay(s, l, p); }
  }

  ghost predicate NeverMailedFor(s: State, r: nat, p: Purpose) {
    forall steps :: MailFor(Run(s, steps).cadence, r, p) == MailFor(s.cadence, r, p)
  }

  ghost predicate NeverMailedHarmlessly(s: State, r: nat, p: Purpose) {
    forall steps :: AllHarmless(s, steps) ==> MailFor(Run(s, steps).cadence, r, p) == MailFor(s.cadence, r, p)
  }

  /** Once a registration has a booked meeting, lacks consent or belongs to a blocked lead, nothing more is
      mailed for it, even if enrichment enrols it later. */
  lemma {:induction false} BarredRegistrationsGetNoMail(s: State, steps: seq<Step>, r: nat, p: Purpose)
    requires Inv(s) && r in s.crm.registrations && Barred(s.crm, r, p) && NothingUnderWayFor(s.cadence, r, p)
    ensures var t := Run(s, steps);
      && Inv(t) && r in t.crm.registrations && Barred(t.crm, r, p) && NothingUnderWayFor(t.cadence, r, p)
      && MailFor(t.cadence, r, p) == MailFor(s.cadence, r, p)
  {
    if steps != [] {
      BarredRegistrationsGetNoMail(s, steps[..|steps| - 1], r, p);
      var t := Run(s, steps[..|steps| - 1]);
      StepKeepsInv(t, steps[|steps| - 1]);
      BarredStays(t, steps[|steps| - 1], r, p);
      StepMailsNothing(t, steps[|steps| - 1], 0, r, p);
    }
  }

  /** Nor once it is declined, while nobody harms with an old reading of its status. */
  lemma {:induction false} DoomedRegistrationsGetNoMail(s: State, steps: seq<Step>, r: nat, p: Purpose)
    requires Inv(s) && r in s.crm.registrations && Doomed(s.crm, r, p) && NothingUnderWayFor(s.cadence, r, p)
    requires AllHarmless(s, steps)
    ensures var t := Run(s, steps);
      && Inv(t) && r in t.crm.registrations && Doomed(t.crm, r, p) && NothingUnderWayFor(t.cadence, r, p)
      && MailFor(t.cadence, r, p) == MailFor(s.cadence, r, p)
  {
    if steps != [] {
      DoomedRegistrationsGetNoMail(s, steps[..|steps| - 1], r, p);
      var t := Run(s, steps[..|steps| - 1]);
      StepKeepsInv(t, steps[|steps| - 1]);
      DoomedStays(t, steps[|steps| - 1], r, p);
      StepMailsNothing(t, steps[|steps| - 1], 0, r, p);
    }
  }

  lemma UnderWayArrivesFor(s: State, d: nat)
    requires d in s.cadence.dispatchers && s.cadence.dispatchers[d].Sending?
    requires s.cadence.dispatchers[d].message !in s.cadence.emails
    ensures var x := s.cadence.dispatchers[d].email;
      MailFor(Run(s, [Dispatcher(d, Send)]).cadence, x.registration, x.purpose)
        != MailFor(s.cadence, x.registration, x.purpose)
  {
    RunOne(s, Dispatcher(d, Send));
    var c := HandOver(s.cadence, d);
    var x := s.cadence.dispatchers[d].email;
    assert s.cadence.dispatchers[d].message in MailFor(c, x.registration, x.purpose);
  }

  lemma NeverMailedForMeansNothingUnderWay(s: State, r: nat, p: Purpose)
    requires NeverMailedHarmlessly(s, r, p)
    ensures NothingUnderWayFor(s.cadence, r, p)
  {
    var c := s.cadence;
    forall d | d in c.dispatchers && c.dispatchers[d].Sending?
      && c.dispatchers[d].email.registration == r && c.dispatchers[d].email.purpose == p
      ensures c.dispatchers[d].message in c.emails
    {
      if c.dispatchers[d].message !in c.emails {
        UnderWayArrivesFor(s, d);
        SendIsHarmless(s, d);
      }
    }
  }

  lemma SendIsHarmless(s: State, d: nat)
    ensures AllHarmless(s, [Dispatcher(d, Send)])
  {
    assert [Dispatcher(d, Send)][..0] == [];
    assert AllHarmless(s, []);
  }

  /** A registration that is refused whatever its status is safe from all future runs exactly when nothing is
      under way for it. */
  lemma BarredIsSafeExactly(s: State, r: nat, p: Purpose)
    requires Inv(s) && r in s.crm.registrations && Barred(s.crm, r, p)
    ensures NothingUnderWayFor(s.cadence, r, p) <==> NeverMailedFor(s, r, p)
  {
    if NothingUnderWayFor(s.cadence, r, p) {
      forall steps ensures MailFor(Run(s, steps).cadence, r, p) == MailFor(s.cadence, r, p) {
        BarredRegistrationsGetNoMail(s, steps, r, p);
      }
    }
    if NeverMailedFor(s, r, p) { NeverMailedForMeansNothingUnderWay(s, r, p); }
  }

  /** One that is refused also for being declined is safe from all harmless runs exactly when nothing is under
      way for it. */
  lemma DoomedIsSafeExactly(s: State, r: nat, p: Purpose)
    requires Inv(s) && r in s.crm.registrations && Doomed(s.crm, r, p)
    ensures NothingUnderWayFor(s.cadence, r, p) <==> NeverMailedHarmlessly(s, r, p)
  {
    if NothingUnderWayFor(s.cadence, r, p) {
      forall steps | AllHarmless(s, steps) ensures MailFor(Run(s, steps).cadence, r, p) == MailFor(s.cadence, r, p) {
        DoomedRegistrationsGetNoMail(s, steps, r, p);
      }
    }
    if NeverMailedHarmlessly(s, r, p) { NeverMailedForMeansNothingUnderWay(s, r, p); }
  }
}
