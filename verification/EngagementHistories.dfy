/** Histories that the engagement code can really go through, from an empty database and with readings that were
    true when they were made: a block that comes while a send is under way, and old readings that take a
    registration out of DECLINED, oversell an event, double-book a slot and exceed the message limit. */
module EngagementHistories {
  import opened CommunicationPolicy
  import opened Engagement
  import opened EngagementCrm
  import opened EngagementCadence
  import opened EngagementTheorems

  // ---- Honest runs ----

  /** What a step has read is true in `s`. */
  predicate TrueReading(s: State, step: Step) {
    match step
    case Api(OperatorStatus(r, _, read)) => r in s.crm.registrations && s.crm.registrations[r].status == read
    case Api(Inbound(r, _, _, _, read)) => r in s.crm.registrations && s.crm.registrations[r].status == read
    case Api(MoveEvent(e, _, read)) => e in s.crm.events && s.crm.events[e].status == read
    case Api(Book(_, _, seen)) => seen == s.crm.slots
    case Api(WithdrawFor(l, _, seen)) => seen == RegistrationsOf(s.crm, l)
    case Api(Webhook(m, _, _, read)) => m in s.cadence.messages && s.cadence.messages[m].status == read
    case _ => true
  }

  /** What a step has read was true at some point of the run before it. */
  ghost predicate WasTrue(steps: seq<Step>, step: Step) {
    exists j :: 0 <= j <= |steps| && TrueReading(Run(INITIAL, steps[..j]), step)
  }

  ghost predicate Honest(steps: seq<Step>) {
    steps != [] ==> Honest(steps[..|steps| - 1]) && WasTrue(steps[..|steps| - 1], steps[|steps| - 1])
  }

  ghost predicate Reachable(s: State) { exists steps :: Honest(steps) && Run(INITIAL, steps) == s }

  /** The run reaches `s` by way of `s0`. */
  ghost predicate Passes(steps: seq<Step>, j: nat, s0: State, s: State) {
    Honest(steps) && j <= |steps| && Run(INITIAL, steps[..j]) == s0 && Run(INITIAL, steps) == s
  }

  ghost predicate Via(s0: State, s: State) { exists steps, j :: Passes(steps, j, s0, s) }

  lemma ViaItself(s: State)
    requires Reachable(s)
    ensures Via(s, s)
  {
    var steps :| Honest(steps) && Run(INITIAL, steps) == s;
    assert steps[..|steps|] == steps;
    assert Passes(steps, |steps|, s, s);
  }

  lemma ViaIsReachable(s0: State, s: State)
    requires Via(s0, s)
    ensures Reachable(s)
  {
    var steps, j :| Passes(steps, j, s0, s);
  }

  lemma StepOn(steps: seq<Step>, j: nat, s0: State, s: State, step: Step)
    requires Passes(steps, j, s0, s) && (TrueReading(s0, step) || TrueReading(s, step))
    ensures Passes(steps + [step], j, s0, Apply(s, step)) && Passes(steps + [step], |steps|, s, Apply(s, step))
  {
    var all := steps + [step];
    assert all[..|all| - 1] == steps && all[..j] == steps[..j] && steps[..|steps|] == steps;
    RunSnoc(INITIAL, steps, step);
    if TrueReading(s0, step) {
      assert TrueReading(Run(INITIAL, steps[..j]), step);
    } else {
      assert TrueReading(Run(INITIAL, steps[..|steps|]), step);
    }
  }

  /** A step whose reading was true on the way, or is true now. */
  lemma ViaStep(s0: State, s: State, step: Step)
    requires Via(s0, s) && (TrueReading(s0, step) || TrueReading(s, step))
    ensures Via(s0, Apply(s, step)) && Via(s, Apply(s, step))
  {
    var steps, j :| Passes(steps, j, s0, s);
    StepOn(steps, j, s0, s, step);
  }

  /** One step of a history. */
  ghost predicate Leads(s: State, step: Step, t: State) { Apply(s, step) == t && TrueReading(s, step) }

  lemma ReachableStep(s: State, step: Step, t: State)
    requires Reachable(s) && Leads(s, step, t)
    ensures Reachable(t)
  {
    ViaItself(s);
    ViaStep(s, s, step);
    ViaIsReachable(s, t);
  }

  /** One step whose reading was true in `s0`, on the way. */
  lemma LateStep(s0: State, s: State, step: Step, t: State)
    requires Via(s0, s) && Apply(s, step) == t && (TrueReading(s0, step) || TrueReading(s, step))
    ensures Via(s0, t) && Via(s, t)
  {
    ViaStep(s0, s, step);
  }

  // ---- One event with one seat, and a lead that registers for it ----

  /** Ten in the morning, when the event starts. */
  const NOW := 10 * HOUR_MS

  function Row(status: EventStatus): EventRow { EventRow(status, 1, NOW, None, 0, 0) }

  function OneEvent(status: EventStatus): Crm {
    Crm(map[0 := Row(status)], map[], map[], {}, {}, {}, multiset{}, multiset{}, multiset{})
  }

  function OneLead(st: RegistrationStatus, consents: set<Consent>): Crm {
    Crm(map[0 := Row(PUBLISHED)], map[0 := Lead("a", false)], map[0 := Registration(0, 0, st)],
        consents, {}, {}, multiset{}, multiset{0}, multiset{})
  }

  const EVENT_ONLY := {Consent(0, 0, EVENT_COMMUNICATION)}
  const BOTH := {Consent(0, 0, EVENT_COMMUNICATION), Consent(0, 0, COMMERCIAL_FOLLOW_UP)}

  const NO_CADENCE := Cadence({}, {}, map[], map[], map[], map[], {}, map[])

  function Plain(st: RegistrationStatus): State { State(OneLead(st, EVENT_ONLY), NO_CADENCE) }

  lemma CreatePublishes()
    ensures Leads(INITIAL, Api(CreateEvent(0, Row(DRAFT))), State(OneEvent(DRAFT), NO_CADENCE))
    ensures Leads(
      State(OneEvent(DRAFT), NO_CADENCE), Api(MoveEvent(0, PUBLISHED, DRAFT)), State(OneEvent(PUBLISHED), NO_CADENCE))
  {
    assert AddEvent(INITIAL.crm, 0, Row(DRAFT)) == OneEvent(DRAFT);
    assert SetEventStatus(OneEvent(DRAFT), 0, PUBLISHED, DRAFT) == OneEvent(PUBLISHED);
  }

  lemma PublishedIsReachable()
    ensures Reachable(State(OneEvent(PUBLISHED), NO_CADENCE))
  {
    assert Honest([]) && Run(INITIAL, []) == INITIAL;
    CreatePublishes();
    ReachableStep(INITIAL, Api(CreateEvent(0, Row(DRAFT))), State(OneEvent(DRAFT), NO_CADENCE));
    ReachableStep(State(OneEvent(DRAFT), NO_CADENCE), Api(MoveEvent(0, PUBLISHED, DRAFT)),
                  State(OneEvent(PUBLISHED), NO_CADENCE));
  }

  lemma LeadRegisters(commercial: bool)
    ensures Leads(State(OneEvent(PUBLISHED), NO_CADENCE), Api(RegisterForEvent(0, "a", commercial, 0, 0)),
      State(OneLead(REGISTERED, if commercial then BOTH else EVENT_ONLY), NO_CADENCE))
  {
    var crm := OneEvent(PUBLISHED);
    assert Seats(crm, 0) == {};
    assert Register(crm, 0, "a", commercial, 0, 0) == Enter(crm, 0, "a", commercial, 0, 0, REGISTERED);
    assert Enter(crm, 0, "a", commercial, 0, 0, REGISTERED)
      == OneLead(REGISTERED, if commercial then BOTH else EVENT_ONLY);
  }

  lemma RegisteredIsReachable(commercial: bool)
    ensures Reachable(State(OneLead(REGISTERED, if commercial then BOTH else EVENT_ONLY), NO_CADENCE))
  {
    PublishedIsReachable();
    LeadRegisters(commercial);
    ReachableStep(State(OneEvent(PUBLISHED), NO_CADENCE), Api(RegisterForEvent(0, "a", commercial, 0, 0)),
                  State(OneLead(REGISTERED, if commercial then BOTH else EVENT_ONLY), NO_CADENCE));
  }

  predicate HasStatus(s: State, st: RegistrationStatus) {
    0 in s.crm.registrations && s.crm.registrations[0].status == st
  }

  // ---- A send under way ----

  const FIRST := CadenceKey(0, WELCOME)

  function Enrolled(status: ActionStatus, dispatchers: map<nat, Phase>): Cadence {
    NO_CADENCE.(
      enrolled := {0}, enriched := {0}, actions := map[FIRST := Action(0, status)], dispatchers := dispatchers)
  }

  function Approved(status: ActionStatus, dispatchers: map<nat, Phase>): Cadence {
    Enrolled(COMPLETED, dispatchers).(
      actions := map[FIRST := Action(0, COMPLETED), SendKey(0) := Action(0, status)],
      messages := map[0 := Message(0, 0, 0, EVENT_COMMUNICATION, SCHEDULED, None, Some(FIRST))])
  }

  const MAIL := Email(0, 0, 0, EVENT_COMMUNICATION, FIRST)

  /** The registered lead, with a cadence. */
  function With(c: Cadence): State { State(OneLead(REGISTERED, EVENT_ONLY), c) }

  lemma EnrichmentEnrols()
    ensures Leads(With(NO_CADENCE), Api(Enrich(0, false, NOW)), With(Enrolled(PENDING, map[])))
  {
    assert PreEventSteps(NOW, NOW) == [WELCOME];
    assert [WELCOME][..0] == [];
    assert Schedule(map[], 0, []) == map[];
    assert Schedule(map[], 0, [WELCOME]) == map[FIRST := Action(0, PENDING)];
    assert CompleteEnrichment(With(NO_CADENCE), 0, false, NOW) == With(Enrolled(PENDING, map[]));
  }

  /** At ten in the morning, with consent and nothing against it, the policy says yes. */
  lemma PolicySaysYes(c: Cadence, meeting: bool)
    requires Delivered(c, 0, 0, EVENT_COMMUNICATION) == {} && !meeting
    ensures Judgement(With(c), 0, 0, EVENT_COMMUNICATION, 0, meeting, NOW) == Allowed
  {
  }

  lemma WelcomeIsClaimed()
    ensures Leads(With(Enrolled(PENDING, map[])), Dispatcher(0, ClaimAction(FIRST)),
      With(Enrolled(DISPATCHING, map[0 := Claimed(FIRST)])))
  {
    assert Claim(Enrolled(PENDING, map[]), 0, FIRST) == Enrolled(DISPATCHING, map[0 := Claimed(FIRST)]);
  }

  lemma WelcomeIsDecided()
    ensures Leads(With(Enrolled(DISPATCHING, map[0 := Claimed(FIRST)])), Dispatcher(0, Decide(NOW)),
      With(Enrolled(DISPATCHING, map[0 := Drafting(FIRST)])))
  {
    var claimed := Enrolled(DISPATCHING, map[0 := Claimed(FIRST)]);
    PolicySaysYes(claimed, false);
    assert JudgeDecision(With(claimed), 0, NOW) == With(Enrolled(DISPATCHING, map[0 := Drafting(FIRST)]));
  }

  lemma WelcomeIsDrafted()
    ensures Leads(With(Enrolled(DISPATCHING, map[0 := Drafting(FIRST)])), Dispatcher(0, Draft(0)),
      With(Approved(PENDING, map[0 := Idle])))
  {
    var s := With(Enrolled(DISPATCHING, map[0 := Drafting(FIRST)]));
    assert CommitDraft(s, 0, 0) == With(Approved(PENDING, map[0 := Idle]));
  }

  lemma SendIsClaimed()
    ensures Leads(With(Approved(PENDING, map[0 := Idle])), Dispatcher(0, ClaimAction(SendKey(0))),
      With(Approved(DISPATCHING, map[0 := Claimed(SendKey(0))])))
  {
    assert Claim(Approved(PENDING, map[0 := Idle]), 0, SendKey(0))
      == Approved(DISPATCHING, map[0 := Claimed(SendKey(0))]);
  }

  lemma SendIsChecked()
    ensures Leads(With(Approved(DISPATCHING, map[0 := Claimed(SendKey(0))])), Dispatcher(0, CheckSend(NOW)),
      With(Approved(DISPATCHING, map[0 := Sending(SendKey(0), 0, MAIL)])))
  {
    var claimed := Approved(DISPATCHING, map[0 := Claimed(SendKey(0))]);
    PolicySaysYes(claimed, MeetingFor(OneLead(REGISTERED, EVENT_ONLY), 0, 0));
    assert JudgeSend(With(claimed), 0, NOW) == With(Approved(DISPATCHING, map[0 := Sending(SendKey(0), 0, MAIL)]));
  }

  lemma DraftingIsReachable()
    ensures Reachable(With(Enrolled(DISPATCHING, map[0 := Drafting(FIRST)])))
  {
    RegisteredIsReachable(false);
    EnrichmentEnrols();
    ReachableStep(With(NO_CADENCE), Api(Enrich(0, false, NOW)), With(Enrolled(PENDING, map[])));
    WelcomeIsClaimed();
    var claimed := With(Enrolled(DISPATCHING, map[0 := Claimed(FIRST)]));
    ReachableStep(With(Enrolled(PENDING, map[])), Dispatcher(0, ClaimAction(FIRST)), claimed);
    WelcomeIsDecided();
    ReachableStep(claimed, Dispatcher(0, Decide(NOW)), With(Enrolled(DISPATCHING, map[0 := Drafting(FIRST)])));
  }

  /** A dispatcher has the go-ahead for the welcome message. */
  lemma SendingIsReachable()
    ensures Reachable(With(Approved(DISPATCHING, map[0 := Sending(SendKey(0), 0, MAIL)])))
  {
    DraftingIsReachable();
    WelcomeIsDrafted();
    var drafting := With(Enrolled(DISPATCHING, map[0 := Drafting(FIRST)]));
    var approved := With(Approved(PENDING, map[0 := Idle]));
    ReachableStep(drafting, Dispatcher(0, Draft(0)), approved);
    SendIsClaimed();
    var claimed := With(Approved(DISPATCHING, map[0 := Claimed(SendKey(0))]));
    ReachableStep(approved, Dispatcher(0, ClaimAction(SendKey(0))), claimed);
    SendIsChecked();
    ReachableStep(claimed, Dispatcher(0, CheckSend(NOW)),
                  With(Approved(DISPATCHING, map[0 := Sending(SendKey(0), 0, MAIL)])));
  }

  lemma WithdrawalBlocks(s: State)
    requires s == With(Approved(DISPATCHING, map[0 := Sending(SendKey(0), 0, MAIL)]))
    ensures TrueReading(s, Api(WithdrawFor(0, EVENT_COMMUNICATION, {0})))
    ensures var t := Withdraw(s, 0, EVENT_COMMUNICATION, {0});
      Blocked(t.crm, 0, EVENT_COMMUNICATION) && !NothingUnderWayTo(t.cadence, 0, EVENT_COMMUNICATION)
  {
    assert RegistrationsOf(s.crm, 0) == {0};
    var t := Withdraw(s, 0, EVENT_COMMUNICATION, {0});
    assert t.cadence.dispatchers[0] == Sending(SendKey(0), 0, MAIL) && t.cadence.emails == map[];
  }

  /** The lead withdraws its consent while the send is under way: it is blocked, and will be mailed. */
  lemma BlockedCanBeUnderWay()
    ensures exists s ::
      Reachable(s) && Blocked(s.crm, 0, EVENT_COMMUNICATION) && !NothingUnderWayTo(s.cadence, 0, EVENT_COMMUNICATION)
  {
    SendingIsReachable();
    var s := With(Approved(DISPATCHING, map[0 := Sending(SendKey(0), 0, MAIL)]));
    WithdrawalBlocks(s);
    var t := Withdraw(s, 0, EVENT_COMMUNICATION, {0});
    ReachableStep(s, Api(WithdrawFor(0, EVENT_COMMUNICATION, {0})), t);
  }

  lemma DecliningDooms(s: State)
    requires s == With(Approved(DISPATCHING, map[0 := Sending(SendKey(0), 0, MAIL)]))
    ensures var t := UpdateStatus(s, 0, DECLINED, REGISTERED);
      HasStatus(t, DECLINED) && !NothingUnderWayFor(t.cadence, 0, EVENT_COMMUNICATION)
  {
    var t := UpdateStatus(s, 0, DECLINED, REGISTERED);
    assert t.cadence.dispatchers[0] == Sending(SendKey(0), 0, MAIL) && t.cadence.emails == map[];
  }

  /** The same with an operator who records that the lead has declined. */
  lemma DeclinedCanBeUnderWay()
    ensures exists s ::
      Reachable(s) && HasStatus(s, DECLINED) && !NothingUnderWayFor(s.cadence, 0, EVENT_COMMUNICATION)
  {
    SendingIsReachable();
    var s := With(Approved(DISPATCHING, map[0 := Sending(SendKey(0), 0, MAIL)]));
    DecliningDooms(s);
    ReachableStep(s, Api(OperatorStatus(0, DECLINED, REGISTERED)), UpdateStatus(s, 0, DECLINED, REGISTERED));
  }

  // ---- Old readings ----

  lemma StatusesChange(from: RegistrationStatus, to: RegistrationStatus, read: RegistrationStatus)
    requires CanMove(read, to) && (to.DECLINED? || to.CONFIRMED?)
    ensures Apply(Plain(from), Api(OperatorStatus(0, to, read))) == Plain(to)
  {
    assert UpdateStatus(Plain(from), 0, to, read) == Plain(to);
  }

  /** The lead declines after it has registered. */
  lemma DeclinedViaRegistered()
    ensures Via(Plain(REGISTERED), Plain(DECLINED))
  {
    RegisteredIsReachable(false);
    ViaItself(Plain(REGISTERED));
    StatusesChange(REGISTERED, DECLINED, REGISTERED);
    LateStep(Plain(REGISTERED), Plain(REGISTERED), Api(OperatorStatus(0, DECLINED, REGISTERED)), Plain(DECLINED));
  }

  /** A confirmation that looked its transition up before the lead declined takes it out of DECLINED. */
  lemma DeclinedCanBeLeft()
    ensures exists s, t :: Via(s, t) && HasStatus(s, DECLINED) && HasStatus(t, CONFIRMED)
  {
    DeclinedViaRegistered();
    StatusesChange(DECLINED, CONFIRMED, REGISTERED);
    LateStep(Plain(REGISTERED), Plain(DECLINED), Api(OperatorStatus(0, CONFIRMED, REGISTERED)), Plain(CONFIRMED));
  }

  function TwoLeads(st: RegistrationStatus): Crm {
    Crm(map[0 := Row(PUBLISHED)], map[0 := Lead("a", false), 1 := Lead("b", false)],
        map[0 := Registration(0, 0, st), 1 := Registration(0, 1, REGISTERED)],
        EVENT_ONLY + {Consent(0, 1, EVENT_COMMUNICATION)}, {}, {}, multiset{}, multiset{0, 1}, multiset{})
  }

  lemma SeatIsSoldAgain()
    ensures Apply(Plain(DECLINED), Api(RegisterForEvent(0, "b", false, 1, 1))) == State(TwoLeads(DECLINED), NO_CADENCE)
  {
    var crm := OneLead(DECLINED, EVENT_ONLY);
    assert Seats(crm, 0) == {};
    assert !EmailTaken(crm, "b") && !RegisteredFor(crm, 0, 1);
    assert Register(crm, 0, "b", false, 1, 1) == Enter(crm, 0, "b", false, 1, 1, REGISTERED);
    assert Enter(crm, 0, "b", false, 1, 1, REGISTERED) == TwoLeads(DECLINED);
  }

  lemma SeatIsTakenBack()
    ensures var t := State(TwoLeads(CONFIRMED), NO_CADENCE);
      && Apply(State(TwoLeads(DECLINED), NO_CADENCE), Api(OperatorStatus(0, CONFIRMED, REGISTERED))) == t
      && !NotOversold(t.crm)
  {
    var t := State(TwoLeads(CONFIRMED), NO_CADENCE);
    assert UpdateStatus(State(TwoLeads(DECLINED), NO_CADENCE), 0, CONFIRMED, REGISTERED) == t;
    assert Seats(t.crm, 0) == {0, 1};
  }

  /** And when the seat has been sold again meanwhile, the event is oversold without any move off a waiting
      list. */
  lemma OldReadingsCanOversell()
    ensures exists s :: Reachable(s) && !NotOversold(s.crm)
  {
    DeclinedViaRegistered();
    SeatIsSoldAgain();
    var sold, oversold := State(TwoLeads(DECLINED), NO_CADENCE), State(TwoLeads(CONFIRMED), NO_CADENCE);
    LateStep(Plain(REGISTERED), Plain(DECLINED), Api(RegisterForEvent(0, "b", false, 1, 1)), sold);
    SeatIsTakenBack();
    LateStep(Plain(REGISTERED), sold, Api(OperatorStatus(0, CONFIRMED, REGISTERED)), oversold);
    ViaIsReachable(Plain(REGISTERED), oversold);
  }

  lemma BothAreBooked(s0: State, s1: State, s2: State, a: Slot, b: Slot)
    requires s0 == Plain(REGISTERED) && a == Slot(0, 2) && b == Slot(1, 3)
    requires s1 == BookMeeting(s0, 0, a, multiset{}) && s2 == BookMeeting(s1, 0, b, multiset{})
    ensures !SlotsApart(s2.crm.slots)
  {
    assert a in s2.crm.slots && b in s2.crm.slots && Overlaps(a, b);
  }

  lemma SearchFindsNothing(slot: Slot)
    ensures TrueReading(Plain(REGISTERED), Api(Book(0, slot, multiset{})))
  {
  }

  lemma BookApplies(s: State, slot: Slot)
    ensures Apply(s, Api(Book(0, slot, multiset{}))) == BookMeeting(s, 0, slot, multiset{})
  {
  }

  /** Two bookings of overlapping slots that both searched before either was made. */
  lemma OldReadingsCanDoubleBook()
    ensures exists s :: Reachable(s) && !SlotsApart(s.crm.slots)
  {
    RegisteredIsReachable(false);
    var s0, a, b := Plain(REGISTERED), Slot(0, 2), Slot(1, 3);
    ViaItself(s0);
    SearchFindsNothing(a);
    SearchFindsNothing(b);
    var s1 := BookMeeting(s0, 0, a, multiset{});
    BookApplies(s0, a);
    LateStep(s0, s0, Api(Book(0, a, multiset{})), s1);
    var s2 := BookMeeting(s1, 0, b, multiset{});
    BookApplies(s1, b);
    LateStep(s0, s1, Api(Book(0, b, multiset{})), s2);
    BothAreBooked(s0, s1, s2, a, b);
    ViaIsReachable(s0, s2);
  }

  // ---- Leases that run out under a live dispatcher ----

  /** The claim of the code when the lease of a dispatching action has run out although its dispatcher is still
      at work, which the state machine leaves out. */
  function ClaimOverLive(c: Cadence, d: nat, key: ActionKey): Cadence {
    if !PhaseOf(c, d).Idle? || key !in c.actions || !c.actions[key].status.DISPATCHING? then c
    else Become(c, d, Claimed(key))
  }

  predicate DraftedTwice(s: State) {
    && 0 in s.cadence.messages && 1 in s.cadence.messages
    && s.cadence.messages[0].origin == s.cadence.messages[1].origin == Some(FIRST)
  }

  /** What two dispatchers make of a draft when the second claims over the first. */
  function BothDraft(s: State): State {
    CommitDraft(CommitDraft(JudgeDecision(s.(cadence := ClaimOverLive(s.cadence, 1, FIRST)), 1, NOW), 0, 0), 1, 1)
  }

  lemma BothDraftTheWelcome()
    ensures DraftedTwice(BothDraft(With(Enrolled(DISPATCHING, map[0 := Drafting(FIRST)]))))
  {
    var claimed := Enrolled(DISPATCHING, map[0 := Drafting(FIRST), 1 := Claimed(FIRST)]);
    assert ClaimOverLive(Enrolled(DISPATCHING, map[0 := Drafting(FIRST)]), 1, FIRST) == claimed;
    PolicySaysYes(claimed, false);
    var both := Enrolled(DISPATCHING, map[0 := Drafting(FIRST), 1 := Drafting(FIRST)]);
    assert JudgeDecision(With(claimed), 1, NOW) == With(both);
    var once := CommitDraft(With(both), 0, 0);
    assert once.cadence == Approved(PENDING, map[0 := Idle, 1 := Drafting(FIRST)]);
    assert DraftedTwice(CommitDraft(once, 1, 1));
  }

  /** Then two dispatchers can draft the same step, and there are two messages for it. */
  lemma LostLeaseDraftsTwice()
    ensures exists s :: Reachable(s) && DraftedTwice(BothDraft(s))
  {
    DraftingIsReachable();
    BothDraftTheWelcome();
  }

  /** Dispatcher 1 is about to check a message that has been sent. */
  predicate FindsItSent(s: State) {
    && PhaseOf(s.cadence, 1) == Claimed(SendKey(0))
    && 0 in s.cadence.messages && s.cadence.messages[0].status.SENT?
  }

  function AcceptedWelcome(dispatchers: map<nat, Phase>): Cadence {
    Approved(DISPATCHING, dispatchers).(emails := map[0 := MAIL])
  }

  lemma WelcomeIsHandedOver()
    ensures Leads(With(Approved(DISPATCHING, map[0 := Sending(SendKey(0), 0, MAIL)])), Dispatcher(0, Send),
      With(AcceptedWelcome(map[0 := Accepted(SendKey(0), 0)])))
  {
    assert HandOver(Approved(DISPATCHING, map[0 := Sending(SendKey(0), 0, MAIL)]), 0)
      == AcceptedWelcome(map[0 := Accepted(SendKey(0), 0)]);
  }

  /** The first dispatcher records its send after the second has claimed over it. */
  function RecordedUnder(s: State): State {
    s.(cadence := CommitSend(ClaimOverLive(s.cadence, 1, SendKey(0)), 0, "id", false))
  }

  lemma RecordedUnderTheOther()
    ensures FindsItSent(RecordedUnder(With(AcceptedWelcome(map[0 := Accepted(SendKey(0), 0)]))))
  {
    var claimed := AcceptedWelcome(map[0 := Accepted(SendKey(0), 0), 1 := Claimed(SendKey(0))]);
    assert ClaimOverLive(AcceptedWelcome(map[0 := Accepted(SendKey(0), 0)]), 1, SendKey(0)) == claimed;
    assert !ProviderIdTaken(claimed, "id");
    assert FindsItSent(With(CommitSend(claimed, 0, "id", false)));
  }

  /** And the branch for a message that has been sent already is taken. */
  lemma LostLeaseFindsItSent()
    ensures exists s :: Reachable(s) && FindsItSent(RecordedUnder(s))
  {
    SendingIsReachable();
    WelcomeIsHandedOver();
    ReachableStep(With(Approved(DISPATCHING, map[0 := Sending(SendKey(0), 0, MAIL)])), Dispatcher(0, Send),
                  With(AcceptedWelcome(map[0 := Accepted(SendKey(0), 0)])));
    RecordedUnderTheOther();
  }
}
