/** A history in which a registration gets follow-ups of both kinds and runs into the message limit: two operators
    have both read CONFIRMED, and the second records NO_SHOW after the mails for ATTENDED have gone out. */
module FollowUpHistories {
  import opened CommunicationPolicy
  import opened Engagement
  import opened EngagementCrm
  import opened EngagementCadence
  import opened EngagementTheorems
  import opened EngagementHistories

  /** Provider ids of different lengths. */
  function Id(m: nat): string { seq(m, i => 'x') }

  lemma IdsDiffer(m: nat, n: nat)
    requires m != n
    ensures Id(m) != Id(n)
  {
    assert |Id(m)| == m && |Id(n)| == n;
  }

  /** Messages 0 to n - 1 are follow-ups that have been sent, each with its send action, and there are no others. */
  ghost predicate Sent(c: Cadence, n: nat) {
    && (forall m: nat :: m in c.messages <==> m < n)
    && (forall m :: m in c.messages ==>
          Counts(c.messages[m], 0, 0, COMMERCIAL_FOLLOW_UP) && c.messages[m].providerId == Some(Id(m)))
    && (forall m: nat :: SendKey(m) in c.actions <==> m < n)
  }

  ghost predicate AllIdle(c: Cadence) { forall d :: d in c.dispatchers ==> c.dispatchers[d].Idle? }

  /** The registration is in status `st`, `n` follow-ups have been sent, and no dispatcher is at work. */
  ghost predicate AtRest(s: State, st: RegistrationStatus, n: nat) {
    s.crm == OneLead(st, BOTH) && 0 in s.cadence.enrolled && AllIdle(s.cadence) && Sent(s.cadence, n)
  }

  lemma {:induction false} NatsBelow(ms: set<nat>, n: nat)
    requires forall m: nat :: m in ms <==> m < n
    ensures |ms| == n
    decreases n
  {
    if n > 0 {
      NatsBelow(ms - {n - 1}, n - 1);
    } else {
      assert ms == {};
    }
  }

  lemma SentAreDelivered(c: Cadence, n: nat)
    requires Sent(c, n)
    ensures DeliveredCount(c, 0, 0, COMMERCIAL_FOLLOW_UP) == n
  {
    NatsBelow(Delivered(c, 0, 0, COMMERCIAL_FOLLOW_UP), n);
  }

  /** What the policy says about a follow-up at ten in the morning, by the messages that count. */
  lemma Verdicts(s: State, st: RegistrationStatus, n: nat, meeting: bool)
    requires s.crm == OneLead(st, BOTH) && !st.DECLINED? && !meeting
    requires DeliveredCount(s.cadence, 0, 0, COMMERCIAL_FOLLOW_UP) == n
    ensures Judgement(s, 0, 0, COMMERCIAL_FOLLOW_UP, 0, meeting, NOW)
      == if n < 4 then Allowed else Refused(CADENCE_LIMIT_REACHED)
  {
  }

  lemma ClaimWorks(c: Cadence, key: ActionKey)
    requires AllIdle(c) && key in c.actions && c.actions[key].status.PENDING?
    ensures Claim(c, 0, key) == c.(dispatchers := c.dispatchers[0 := Claimed(key)],
                                   actions := c.actions[key := c.actions[key].(status := DISPATCHING)])
  {
  }

  // ---- One follow-up, from its claim to its record ----

  function AfterClaim(s: State, key: ActionKey): State { s.(cadence := Claim(s.cadence, 0, key)) }

  function AfterDecision(s: State, key: ActionKey): State {
    var t := AfterClaim(s, key);
    t.(cadence := Become(t.cadence, 0, Drafting(key)))
  }

  function AfterDraft(s: State, key: ActionKey, n: nat): State { CommitDraft(AfterDecision(s, key), 0, n) }

  lemma DecisionIsMade(s: State, st: RegistrationStatus, n: nat, step: CadenceStep)
    requires AtRest(s, st, n) && n < 4 && !st.DECLINED? && StepPurpose(step).COMMERCIAL_FOLLOW_UP?
    requires CadenceKey(0, step) in s.cadence.actions && s.cadence.actions[CadenceKey(0, step)].status.PENDING?
    ensures var key := CadenceKey(0, step);
      && Apply(s, Dispatcher(0, ClaimAction(key))) == AfterClaim(s, key)
      && Apply(AfterClaim(s, key), Dispatcher(0, Decide(NOW))) == AfterDecision(s, key)
  {
    var key := CadenceKey(0, step);
    ClaimWorks(s.cadence, key);
    var t := AfterClaim(s, key);
    SentAreDelivered(s.cadence, n);
    assert Delivered(t.cadence, 0, 0, COMMERCIAL_FOLLOW_UP) == Delivered(s.cadence, 0, 0, COMMERCIAL_FOLLOW_UP);
    Verdicts(t, st, n, false);
    assert JudgeDecision(t, 0, NOW) == AfterDecision(s, key);
  }

  function Drafted(step: CadenceStep): Message {
    Message(0, 0, 0, COMMERCIAL_FOLLOW_UP, SCHEDULED, None, Some(CadenceKey(0, step)))
  }

  /** After drafting: message n waits to be sent, and the cadence action is completed. */
  ghost predicate Drawn(s: State, t: State, step: CadenceStep, n: nat) {
    var key := CadenceKey(0, step);
    && key in s.cadence.actions && t.crm == s.crm && t.cadence.enrolled == s.cadence.enrolled && AllIdle(t.cadence)
    && t.cadence.messages == s.cadence.messages[n := Drafted(step)] && t.cadence.emails == s.cadence.emails
    && t.cadence.actions
       == s.cadence.actions[key := s.cadence.actions[key].(status := COMPLETED)][SendKey(n) := Action(0, PENDING)]
  }

  lemma DraftIsStored(s: State, st: RegistrationStatus, n: nat, step: CadenceStep)
    requires AtRest(s, st, n) && StepPurpose(step).COMMERCIAL_FOLLOW_UP?
    requires CadenceKey(0, step) in s.cadence.actions && s.cadence.actions[CadenceKey(0, step)].status.PENDING?
    ensures Drawn(s, AfterDraft(s, CadenceKey(0, step), n), step, n)
  {
    var key := CadenceKey(0, step);
    ClaimWorks(s.cadence, key);
    var t := AfterDecision(s, key);
    assert PhaseOf(t.cadence, 0) == Drafting(key) && t.crm.registrations[0] == Registration(0, 0, st);
    assert n !in t.cadence.messages && SendKey(n) !in t.cadence.actions;
    assert t.cadence.actions == s.cadence.actions[key := t.cadence.actions[key]];
    var c := AfterDraft(s, key, n).cadence;
    assert c.dispatchers == s.cadence.dispatchers[0 := Idle];
    assert c.actions
      == t.cadence.actions[key := s.cadence.actions[key].(status := COMPLETED)][SendKey(n) := Action(0, PENDING)];
  }

  function Mail(step: CadenceStep): Email { Email(0, 0, 0, COMMERCIAL_FOLLOW_UP, CadenceKey(0, step)) }

  function AfterCheck(t: State, step: CadenceStep, n: nat): State {
    var u := AfterClaim(t, SendKey(n));
    u.(cadence := Become(u.cadence, 0, Sending(SendKey(n), n, Mail(step))))
  }

  lemma CheckIsPassed(s: State, t: State, st: RegistrationStatus, n: nat, step: CadenceStep)
    requires AtRest(s, st, n) && n < 4 && !st.DECLINED? && Drawn(s, t, step, n)
    ensures Apply(t, Dispatcher(0, ClaimAction(SendKey(n)))) == AfterClaim(t, SendKey(n))
    ensures Apply(AfterClaim(t, SendKey(n)), Dispatcher(0, CheckSend(NOW))) == AfterCheck(t, step, n)
  {
    ClaimWorks(t.cadence, SendKey(n));
    var u := AfterClaim(t, SendKey(n));
    SentAreDelivered(s.cadence, n);
    assert Delivered(u.cadence, 0, 0, COMMERCIAL_FOLLOW_UP) == Delivered(s.cadence, 0, 0, COMMERCIAL_FOLLOW_UP);
    assert !MeetingFor(u.crm, 0, 0);
    Verdicts(u, st, n, MeetingFor(u.crm, 0, 0));
    assert u.cadence.messages[n] == Drafted(step);
    assert JudgeSend(u, 0, NOW) == AfterCheck(t, step, n);
  }

  function AfterSend(t: State, step: CadenceStep, n: nat): State {
    var u := AfterCheck(t, step, n);
    u.(cadence := HandOver(u.cadence, 0))
  }

  function AfterRecord(t: State, step: CadenceStep, n: nat): State {
    var u := AfterSend(t, step, n);
    u.(cadence := CommitSend(u.cadence, 0, Id(n), false))
  }

  /** At rest again, with one more sent, and the other cadence actions as they were. */
  ghost predicate OneMore(s: State, t: State, st: RegistrationStatus, n: nat, step: CadenceStep) {
    && AtRest(t, st, n + 1)
    && (forall k: ActionKey :: k.CadenceKey? ==> (k in t.cadence.actions <==> k in s.cadence.actions))
    && (forall k: ActionKey :: k.CadenceKey? && k in s.cadence.actions && k != CadenceKey(0, step) ==>
          t.cadence.actions[k] == s.cadence.actions[k])
    && CadenceKey(0, step) in t.cadence.actions && !t.cadence.actions[CadenceKey(0, step)].status.PENDING?
  }

  lemma IdIsNew(s: State, t: State, st: RegistrationStatus, n: nat, step: CadenceStep)
    requires AtRest(s, st, n) && Drawn(s, t, step, n)
    ensures !ProviderIdTaken(t.cadence, Id(n))
  {
    forall m | m in t.cadence.messages ensures t.cadence.messages[m].providerId != Some(Id(n)) {
      if m != n { IdsDiffer(m, n); }
    }
  }

  /** The cadence after message n is recorded. */
  function Recorded(c: Cadence, step: CadenceStep, n: nat): Cadence {
    c.(messages := c.messages[n := Drafted(step).(status := SENT, providerId := Some(Id(n)))],
       dispatchers := c.dispatchers[0 := Idle], actions := c.actions[SendKey(n) := Action(0, COMPLETED)],
       emails := if n in c.emails then c.emails else c.emails[n := Mail(step)])
  }

  lemma RecordRecords(s: State, t: State, st: RegistrationStatus, n: nat, step: CadenceStep)
    requires AtRest(s, st, n) && Drawn(s, t, step, n)
    ensures AfterRecord(t, step, n) == t.(cadence := Recorded(t.cadence, step, n))
  {
    ClaimWorks(t.cadence, SendKey(n));
    IdIsNew(s, t, st, n, step);
    var u := AfterSend(t, step, n).cadence;
    assert PhaseOf(u, 0) == Accepted(SendKey(n), n) && u.messages == t.cadence.messages;
    assert !ProviderIdTaken(u, Id(n));
    var c := AfterRecord(t, step, n).cadence;
    assert c.dispatchers == t.cadence.dispatchers[0 := Idle];
    assert c.actions == t.cadence.actions[SendKey(n) := Action(0, COMPLETED)];
  }

  lemma RecordIsMade(s: State, t: State, st: RegistrationStatus, n: nat, step: CadenceStep)
    requires AtRest(s, st, n) && Drawn(s, t, step, n)
    ensures OneMore(s, AfterRecord(t, step, n), st, n, step)
  {
    RecordRecords(s, t, st, n, step);
    var c := Recorded(t.cadence, step, n);
    assert Sent(c, n + 1) && AllIdle(c);
  }

  lemma SendAndRecordApply(t: State, step: CadenceStep, n: nat)
    ensures Apply(AfterCheck(t, step, n), Dispatcher(0, Send)) == AfterSend(t, step, n)
    ensures Apply(AfterSend(t, step, n), Dispatcher(0, Record(Id(n), false))) == AfterRecord(t, step, n)
  {
  }

  lemma DraftApplies(s: State, key: ActionKey, n: nat)
    ensures Apply(AfterDecision(s, key), Dispatcher(0, Draft(n))) == AfterDraft(s, key, n)
  {
  }

  /** A pending follow-up is mailed, when fewer than four have been. */
  lemma MailOne(s0: State, s: State, st: RegistrationStatus, n: nat, step: CadenceStep) returns (t: State)
    requires Via(s0, s) && AtRest(s, st, n) && n < 4 && !st.DECLINED? && StepPurpose(step).COMMERCIAL_FOLLOW_UP?
    requires CadenceKey(0, step) in s.cadence.actions && s.cadence.actions[CadenceKey(0, step)].status.PENDING?
    ensures Via(s0, t) && OneMore(s, t, st, n, step)
  {
    var key := CadenceKey(0, step);
    DecisionIsMade(s, st, n, step);
    DraftIsStored(s, st, n, step);
    DraftApplies(s, key, n);
    MoveOn(s0, s, ClaimAction(key), AfterClaim(s, key));
    MoveOn(s0, AfterClaim(s, key), Decide(NOW), AfterDecision(s, key));
    var u := AfterDraft(s, key, n);
    MoveOn(s0, AfterDecision(s, key), Draft(n), u);
    t := SendOne(s0, s, u, st, n, step);
  }

  /** Moves of a dispatcher read nothing ahead. */
  lemma MoveOn(s0: State, s: State, move: Move, t: State)
    requires Via(s0, s) && Apply(s, Dispatcher(0, move)) == t
    ensures Via(s0, t)
  {
    LateStep(s0, s, Dispatcher(0, move), t);
  }

  lemma SendOne(s0: State, s: State, u: State, st: RegistrationStatus, n: nat, step: CadenceStep) returns (t: State)
    requires Via(s0, u) && AtRest(s, st, n) && n < 4 && !st.DECLINED? && Drawn(s, u, step, n)
    ensures Via(s0, t) && OneMore(s, t, st, n, step)
  {
    CheckIsPassed(s, u, st, n, step);
    SendAndRecordApply(u, step, n);
    RecordIsMade(s, u, st, n, step);
    MoveOn(s0, u, ClaimAction(SendKey(n)), AfterClaim(u, SendKey(n)));
    MoveOn(s0, AfterClaim(u, SendKey(n)), CheckSend(NOW), AfterCheck(u, step, n));
    MoveOn(s0, AfterCheck(u, step, n), Send, AfterSend(u, step, n));
    t := AfterRecord(u, step, n);
    MoveOn(s0, AfterSend(u, step, n), Record(Id(n), false), t);
  }

  // ---- The history ----

  function Follow(st: RegistrationStatus): State { State(OneLead(st, BOTH), NO_CADENCE) }

  lemma LeadIsConfirmed()
    ensures Leads(Follow(REGISTERED), Api(OperatorStatus(0, CONFIRMED, REGISTERED)), Follow(CONFIRMED))
  {
    assert UpdateStatus(Follow(REGISTERED), 0, CONFIRMED, REGISTERED) == Follow(CONFIRMED);
  }

  lemma ConfirmedIsReachable()
    ensures Reachable(Follow(CONFIRMED))
  {
    RegisteredIsReachable(true);
    LeadIsConfirmed();
    ReachableStep(Follow(REGISTERED), Api(OperatorStatus(0, CONFIRMED, REGISTERED)), Follow(CONFIRMED));
  }

  /** The cadence actions on record are those of these steps. */
  ghost predicate OnlySteps(c: Cadence, steps: seq<CadenceStep>) {
    forall k: ActionKey :: k.CadenceKey? ==> (k in c.actions <==> k.registration == 0 && k.step in steps)
  }

  ghost predicate ArePending(c: Cadence, steps: seq<CadenceStep>) {
    forall x :: x in steps ==> CadenceKey(0, x) in c.actions && c.actions[CadenceKey(0, x)].status.PENDING?
  }

  const CAME := [ATTENDEE_H2, ATTENDEE_D2, ATTENDEE_D7]
  const STAYED_AWAY := [NO_SHOW_D1, NO_SHOW_D3, NO_SHOW_D7]

  lemma AttendanceIsRecorded(s: State)
    requires s == UpdateStatus(Follow(CONFIRMED), 0, ATTENDED, CONFIRMED)
    ensures AtRest(s, ATTENDED, 0) && OnlySteps(s.cadence, CAME) && ArePending(s.cadence, CAME)
  {
    var actions := CancelWhere(map[], 0, false);
    ScheduleAdds(actions, 0, CAME);
    assert PostEventSteps(ATTENDED) == CAME && s.cadence.actions == Schedule(actions, 0, CAME);
    assert s.crm == OneLead(ATTENDED, BOTH);
  }

  lemma RescheduledIsSent(c: Cadence, n: nat, st: RegistrationStatus)
    requires Sent(c, n) && AllIdle(c)
    ensures var c' := SchedulePostEvent(c, 0, st); Sent(c', n) && AllIdle(c') && 0 in c'.enrolled
  {
    ScheduleAdds(CancelWhere(c.actions, 0, false), 0, PostEventSteps(st));
  }

  lemma AbsenceIsPending(c: Cadence)
    requires OnlySteps(c, CAME)
    ensures ArePending(SchedulePostEvent(c, 0, NO_SHOW), STAYED_AWAY)
  {
    assert PostEventSteps(NO_SHOW) == STAYED_AWAY;
    ScheduleAdds(CancelWhere(c.actions, 0, false), 0, STAYED_AWAY);
    forall x | x in STAYED_AWAY ensures CadenceKey(0, x) !in c.actions { }
  }

  lemma AbsenceIsRecorded(s: State, t: State)
    requires AtRest(s, ATTENDED, 3) && OnlySteps(s.cadence, CAME) && t == UpdateStatus(s, 0, NO_SHOW, CONFIRMED)
    ensures AtRest(t, NO_SHOW, 3) && ArePending(t.cadence, STAYED_AWAY)
  {
    RescheduledIsSent(s.cadence, 3, NO_SHOW);
    AbsenceIsPending(s.cadence);
    assert t.crm == OneLead(NO_SHOW, BOTH) && t.cadence == SchedulePostEvent(s.cadence, 0, NO_SHOW);
  }

  /** The first of the pending follow-ups is mailed; the others stay pending. */
  lemma MailNext(s0: State, s: State, n: nat, step: CadenceStep, rest: seq<CadenceStep>) returns (t: State)
    requires Via(s0, s) && AtRest(s, ATTENDED, n) && n < 4 && StepPurpose(step).COMMERCIAL_FOLLOW_UP?
    requires OnlySteps(s.cadence, CAME) && ArePending(s.cadence, [step] + rest) && step !in rest
    ensures Via(s0, t) && AtRest(t, ATTENDED, n + 1) && OnlySteps(t.cadence, CAME) && ArePending(t.cadence, rest)
  {
    assert step in [step] + rest;
    t := MailOne(s0, s, ATTENDED, n, step);
    OthersRemain(s, t, ATTENDED, n, step, rest);
  }

  lemma OthersRemain(s: State, t: State, st: RegistrationStatus, n: nat, step: CadenceStep, rest: seq<CadenceStep>)
    requires OneMore(s, t, st, n, step) && OnlySteps(s.cadence, CAME)
    requires ArePending(s.cadence, [step] + rest) && step !in rest
    ensures OnlySteps(t.cadence, CAME) && ArePending(t.cadence, rest)
  {
    forall x | x in rest
      ensures CadenceKey(0, x) in t.cadence.actions && t.cadence.actions[CadenceKey(0, x)].status.PENDING?
    {
      assert x in [step] + rest;
    }
  }

  /** The first operator records that the lead came. */
  lemma AttendedViaConfirmed() returns (s: State)
    ensures Via(Follow(CONFIRMED), s) && AtRest(s, ATTENDED, 0)
    ensures OnlySteps(s.cadence, CAME) && ArePending(s.cadence, CAME)
  {
    ConfirmedIsReachable();
    var s0 := Follow(CONFIRMED);
    ViaItself(s0);
    s := UpdateStatus(s0, 0, ATTENDED, CONFIRMED);
    LateStep(s0, s0, Api(OperatorStatus(0, ATTENDED, CONFIRMED)), s);
    AttendanceIsRecorded(s);
  }

  /** The attendee's three follow-ups are mailed. */
  lemma AttendeeIsMailed() returns (s: State)
    ensures Via(Follow(CONFIRMED), s) && AtRest(s, ATTENDED, 3) && OnlySteps(s.cadence, CAME)
  {
    var s0 := Follow(CONFIRMED);
    var s1 := AttendedViaConfirmed();
    assert [ATTENDEE_H2] + [ATTENDEE_D2, ATTENDEE_D7] == CAME;
    var s2 := MailNext(s0, s1, 0, ATTENDEE_H2, [ATTENDEE_D2, ATTENDEE_D7]);
    assert [ATTENDEE_D2] + [ATTENDEE_D7] == [ATTENDEE_D2, ATTENDEE_D7] && [ATTENDEE_D7] + [] == [ATTENDEE_D7];
    var s3 := MailNext(s0, s2, 1, ATTENDEE_D2, [ATTENDEE_D7]);
    s := MailNext(s0, s3, 2, ATTENDEE_D7, []);
  }

  /** The second operator's change, and a fourth mail. */
  lemma FourAreMailed() returns (s: State)
    ensures Reachable(s) && AtRest(s, NO_SHOW, 4)
    ensures CadenceKey(0, NO_SHOW_D3) in s.cadence.actions
    ensures s.cadence.actions[CadenceKey(0, NO_SHOW_D3)].status.PENDING?
  {
    var s0 := Follow(CONFIRMED);
    var s3 := AttendeeIsMailed();
    var s4 := UpdateStatus(s3, 0, NO_SHOW, CONFIRMED);
    ReadingWasTrue();
    LateStep(s0, s3, Api(OperatorStatus(0, NO_SHOW, CONFIRMED)), s4);
    AbsenceIsRecorded(s3, s4);
    assert NO_SHOW_D1 in STAYED_AWAY && NO_SHOW_D3 in STAYED_AWAY;
    s := MailOne(s0, s4, NO_SHOW, 3, NO_SHOW_D1);
    ViaIsReachable(s0, s);
  }

  lemma ReadingWasTrue()
    ensures TrueReading(Follow(CONFIRMED), Api(OperatorStatus(0, NO_SHOW, CONFIRMED)))
  {
  }

  /** A registration can be written more than three follow-ups. */
  lemma OldReadingsCanWriteFour()
    ensures exists s ::
      Reachable(s) && HasStatus(s, NO_SHOW) && |OutboundFor(s.cadence, 0, 0, COMMERCIAL_FOLLOW_UP)| > 3
  {
    var s := FourAreMailed();
    SentAreDelivered(s.cadence, 4);
    SubsetSize(Delivered(s.cadence, 0, 0, COMMERCIAL_FOLLOW_UP), OutboundFor(s.cadence, 0, 0, COMMERCIAL_FOLLOW_UP));
  }

  /** A dispatcher that decides a follow-up is refused for the message limit. */
  predicate RunsIntoLimit(s: State, step: CadenceStep) {
    && PhaseOf(s.cadence, 0) == Claimed(CadenceKey(0, step))
    && 0 in s.crm.registrations && 0 in s.crm.events && s.crm.registrations[0].event == 0
    && Judgement(s, 0, s.crm.registrations[0].lead, StepPurpose(step), 0, 0 in s.crm.meetings, NOW)
       == Refused(CADENCE_LIMIT_REACHED)
  }

  lemma FifthIsRefused(s: State, t: State)
    requires AtRest(s, NO_SHOW, 4) && CadenceKey(0, NO_SHOW_D3) in s.cadence.actions
    requires s.cadence.actions[CadenceKey(0, NO_SHOW_D3)].status.PENDING?
    requires t == AfterClaim(s, CadenceKey(0, NO_SHOW_D3))
    ensures RunsIntoLimit(t, NO_SHOW_D3)
  {
    ClaimWorks(s.cadence, CadenceKey(0, NO_SHOW_D3));
    SentAreDelivered(s.cadence, 4);
    assert Delivered(t.cadence, 0, 0, COMMERCIAL_FOLLOW_UP) == Delivered(s.cadence, 0, 0, COMMERCIAL_FOLLOW_UP);
    Verdicts(t, NO_SHOW, 4, false);
  }

  /** And the next one is refused with CADENCE_LIMIT_REACHED. */
  lemma OldReadingsCanReachTheLimit()
    ensures exists s, step :: Reachable(s) && RunsIntoLimit(s, step)
  {
    var s := FourAreMailed();
    var key := CadenceKey(0, NO_SHOW_D3);
    var t := AfterClaim(s, key);
    FifthIsRefused(s, t);
    ReachableStep(s, Dispatcher(0, ClaimAction(key)), t);
  }
}
