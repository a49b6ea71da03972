/** What every run keeps of registrations, seats, consent and suppression. */
module EngagementCrm {
  import opened CommunicationPolicy
  import opened Engagement

  // ---- The invariant ----

  ghost predicate UniqueEmails(leads: map<nat, Lead>) {
    forall l, k :: l in leads && k in leads && leads[l].email == leads[k].email ==> l == k
  }

  /** One registration per event and lead. */
  ghost predicate UniqueRegistrations(registrations: map<nat, Registration>) {
    forall r, q ::
      (r in registrations && q in registrations
       && registrations[r].event == registrations[q].event && registrations[r].lead == registrations[q].lead) ==> r == q
  }

  ghost predicate RefersToRows(crm: Crm) {
    && (forall r :: r in crm.registrations ==>
          crm.registrations[r].event in crm.events && crm.registrations[r].lead in crm.leads)
    && (forall r :: r in crm.meetings ==> r in crm.registrations)
  }

  ghost predicate OneRequestEach(crm: Crm) {
    forall r: nat :: crm.requests[r] == if r in crm.registrations then 1 else 0
  }

  ghost predicate CrmOk(crm: Crm) {
    UniqueEmails(crm.leads) && UniqueRegistrations(crm.registrations) && RefersToRows(crm) && OneRequestEach(crm)
  }

  lemma EnterKeepsRows(crm: Crm, e: nat, email: string, commercial: bool, l: nat, r: nat, st: RegistrationStatus)
    requires CrmOk(crm) && e in crm.events && r !in crm.registrations && !RegisteredFor(crm, e, l)
    requires l !in crm.leads ==> !EmailTaken(crm, email)
    ensures CrmOk(Enter(crm, e, email, commercial, l, r, st))
  {
    assert forall k :: k in crm.leads && crm.leads[k].email == email ==> EmailTaken(crm, email);
    forall q | q in crm.registrations && crm.registrations[q].event == e ensures crm.registrations[q].lead != l {
      assert crm.registrations[q].lead == l ==> RegisteredFor(crm, e, l);
    }
  }

  function EntryStatus(crm: Crm, e: nat): RegistrationStatus
    requires e in crm.events
  {
    if |Seats(crm, e)| >= crm.events[e].capacity then WAITLISTED else REGISTERED
  }

  lemma RegisterKeepsCrm(crm: Crm, e: nat, email: string, commercial: bool, l: nat, r: nat)
    requires CrmOk(crm)
    ensures CrmOk(Register(crm, e, email, commercial, l, r))
  {
    if Register(crm, e, email, commercial, l, r) != crm {
      EnterKeepsRows(crm, e, email, commercial, l, r, EntryStatus(crm, e));
    }
  }

  /** The same registrations, whatever their statuses. */
  ghost predicate KeepsRegistrations(crm: Crm, crm': Crm) {
    forall r :: r in crm.registrations ==>
      && r in crm'.registrations
      && crm'.registrations[r].event == crm.registrations[r].event
      && crm'.registrations[r].lead == crm.registrations[r].lead
  }

  /** Statuses, consent, suppression and meetings are not what the invariant is about. */
  lemma RightsKeepCrm(crm: Crm, crm': Crm)
    requires CrmOk(crm) && KeepsRegistrations(crm, crm') && crm'.registrations.Keys == crm.registrations.Keys
    requires crm.events.Keys <= crm'.events.Keys && crm'.leads.Keys == crm.leads.Keys && crm'.requests == crm.requests
    requires UniqueEmails(crm'.leads) && forall r :: r in crm'.meetings ==> r in crm'.registrations
    ensures CrmOk(crm')
  {
  }

  lemma OperationKeepsCrm(s: State, op: Operation)
    requires CrmOk(s.crm)
    ensures CrmOk(ApplyApi(s, op).crm)
  {
    if op.RegisterForEvent? {
      RegisterKeepsCrm(s.crm, op.e, op.email, op.commercial, op.l, op.r);
    } else if Admits(op) {
      AdmissionKeepsCrm(s, op);
    } else {
      RightsOperationKeepsCrm(s, op);
    }
  }

  /** Entering and moving events and registrations; the other operations are about rights and messages. */
  predicate Admits(op: Operation) {
    op.CreateEvent? || op.MoveEvent? || op.RegisterForEvent? || op.OperatorStatus? || op.Inbound? || op.PublicAction?
  }

  lemma UpdateKeepsCrm(s: State, r: nat, st: RegistrationStatus, read: RegistrationStatus)
    requires CrmOk(s.crm)
    ensures CrmOk(UpdateStatus(s, r, st, read).crm)
  {
    if r in s.crm.registrations { WriteKeepsCrm(s.crm, r, st); }
  }

  lemma WriteKeepsCrm(crm: Crm, r: nat, st: RegistrationStatus)
    requires CrmOk(crm) && r in crm.registrations
    ensures CrmOk(Promoting(crm, r, SetStatus(crm, r, st)))
  {
    RightsKeepCrm(crm, SetStatus(crm, r, st));
    RightsKeepCrm(crm, Promoting(crm, r, SetStatus(crm, r, st)));
  }

  lemma ReplyKeepsCrm(crm: Crm, r: nat, written: Option<RegistrationStatus>, p: Purpose)
    requires CrmOk(crm) && r in crm.registrations
    ensures var crm' := AfterReply(crm, r, written);
      CrmOk(crm') && CrmOk(SuppressLead(crm', crm.registrations[r].event, crm.registrations[r].lead, p))
  {
    var crm' := AfterReply(crm, r, written);
    RightsKeepCrm(crm, crm');
    RightsKeepCrm(crm, SuppressLead(crm', crm.registrations[r].event, crm.registrations[r].lead, p));
  }

  lemma InboundKeepsCrm(s: State, r: nat, i: Intent, m: nat, id: Option<string>, read: RegistrationStatus)
    requires CrmOk(s.crm)
    ensures CrmOk(RecordInbound(s, r, i, m, id, read).crm)
  {
    if r in s.crm.registrations { ReplyKeepsCrm(s.crm, r, WrittenByReply(read, i), COMMERCIAL_FOLLOW_UP); }
  }

  lemma TokenKeepsCrm(s: State, t: nat, now: int)
    requires CrmOk(s.crm)
    ensures CrmOk(ConsumePublicAction(s, t, now).crm)
  {
    if ConsumePublicAction(s, t, now) != s {
      var token := s.cadence.tokens[t];
      var st := StatusAfterToken(s.crm.registrations[token.registration].status, token.kind);
      ReplyKeepsCrm(s.crm, token.registration, Some(st), token.purpose);
    }
  }

  lemma EventsKeepCrm(crm: Crm, e: nat, row: EventRow, to: EventStatus, read: EventStatus)
    requires CrmOk(crm)
    ensures CrmOk(AddEvent(crm, e, row)) && CrmOk(SetEventStatus(crm, e, to, read))
  {
    RightsKeepCrm(crm, AddEvent(crm, e, row));
    RightsKeepCrm(crm, SetEventStatus(crm, e, to, read));
  }

  const NO_EVENT := EventRow(DRAFT, 0, 0, None, 0, 0)

  lemma AdmissionKeepsCrm(s: State, op: Operation)
    requires CrmOk(s.crm) && Admits(op) && !op.RegisterForEvent?
    ensures CrmOk(ApplyApi(s, op).crm)
  {
    match op {
      case CreateEvent(e, row) => EventsKeepCrm(s.crm, e, row, DRAFT, DRAFT);
      case MoveEvent(e, to, read) => EventsKeepCrm(s.crm, e, NO_EVENT, to, read);
      case OperatorStatus(r, st, read) => UpdateKeepsCrm(s, r, st, read);
      case Inbound(r, i, m, id, read) => InboundKeepsCrm(s, r, i, m, id, read);
      case PublicAction(t, now) => TokenKeepsCrm(s, t, now);
    }
  }

  lemma BookKeepsCrm(s: State, r: nat, slot: Slot, seen: multiset<Slot>)
    requires CrmOk(s.crm)
    ensures CrmOk(BookMeeting(s, r, slot, seen).crm)
  {
    RightsKeepCrm(s.crm, BookMeeting(s, r, slot, seen).crm);
  }

  lemma WebhookKeepsCrm(s: State, m: nat, receipt: string, kind: WebhookKind, read: MessageStatus)
    requires CrmOk(s.crm)
    ensures CrmOk(ProcessEmailWebhook(s, m, receipt, kind, read).crm)
  {
    RightsKeepCrm(s.crm, ProcessEmailWebhook(s, m, receipt, kind, read).crm);
  }

  lemma WithdrawKeepsCrm(s: State, l: nat, p: Purpose, seen: set<nat>)
    requires CrmOk(s.crm)
    ensures CrmOk(Withdraw(s, l, p, seen).crm)
  {
    RightsKeepCrm(s.crm, Withdraw(s, l, p, seen).crm);
  }

  lemma EraseKeepsCrm(s: State, l: nat)
    requires CrmOk(s.crm)
    ensures CrmOk(DeleteLeadData(s, l).crm)
  {
    RightsKeepCrm(s.crm, DeleteLeadData(s, l).crm);
  }

  lemma RightsOperationKeepsCrm(s: State, op: Operation)
    requires CrmOk(s.crm) && !Admits(op)
    ensures CrmOk(ApplyApi(s, op).crm)
  {
    match op {
      case Book(r, slot, seen) => BookKeepsCrm(s, r, slot, seen);
      case Webhook(m, receipt, kind, read) => WebhookKeepsCrm(s, m, receipt, kind, read);
      case WithdrawFor(l, p, seen) => WithdrawKeepsCrm(s, l, p, seen);
      case Erase(l) => EraseKeepsCrm(s, l);
      case Enrich(_, _, _) =>
      case IssueToken(_, _) =>
    }
  }

  lemma MovesLeaveCrm(s: State, d: nat, move: Move)
    ensures ApplyMove(s, d, move).crm == s.crm
  {
  }

  lemma {:induction false} RunKeepsCrm(steps: seq<Step>)
    ensures CrmOk(Run(INITIAL, steps).crm)
  {
    if steps == [] {
      assert forall r: nat :: multiset{}[r] == 0;
    } else {
      var s := Run(INITIAL, steps[..|steps| - 1]);
      RunKeepsCrm(steps[..|steps| - 1]);
      match steps[|steps| - 1] {
        case Api(op) => OperationKeepsCrm(s, op);
        case Dispatcher(d, move) => MovesLeaveCrm(s, d, move);
      }
    }
  }

  /** However registrations race and repeat, an event has one registration per address, and each has asked for
      enrichment exactly once. */
  lemma OneRegistrationPerAddress(steps: seq<Step>, r: nat, q: nat)
    requires r in Run(INITIAL, steps).crm.registrations && q in Run(INITIAL, steps).crm.registrations
    ensures var crm := Run(INITIAL, steps).crm; var a, b := crm.registrations[r], crm.registrations[q];
      && a.lead in crm.leads && b.lead in crm.leads && crm.requests[r] == 1
      && (a.event == b.event && crm.leads[a.lead].email == crm.leads[b.lead].email ==> r == q)
  {
    RunKeepsCrm(steps);
  }

  // ---- What no step takes back ----

  ghost predicate KeepsCapacity(crm: Crm, crm': Crm) {
    forall e :: e in crm.events ==> e in crm'.events && crm'.events[e].capacity == crm.events[e].capacity
  }

  /** Consent is only ever given together with a new registration. */
  ghost predicate ConsentsWithRegistration(crm: Crm, crm': Crm) {
    forall x :: x in crm'.consents ==> x in crm.consents || !RegisteredFor(crm, x.event, x.lead)
  }

  /** A lead blocked for a purpose stays blocked, also when its suppression rows are erased. */
  ghost predicate KeepsBlocks(crm: Crm, crm': Crm) {
    forall l, p :: Blocked(crm, l, p) ==> Blocked(crm', l, p)
  }

  ghost predicate Onward(crm: Crm, crm': Crm) {
    && KeepsRegistrations(crm, crm')
    && KeepsCapacity(crm, crm')
    && ConsentsWithRegistration(crm, crm')
    && KeepsBlocks(crm, crm')
    && crm.meetings <= crm'.meetings && crm.leads.Keys <= crm'.leads.Keys
  }

  lemma RegisterIsOnward(crm: Crm, e: nat, email: string, commercial: bool, l: nat, r: nat)
    ensures Onward(crm, Register(crm, e, email, commercial, l, r))
  {
  }

  lemma UpdateIsOnward(s: State, r: nat, st: RegistrationStatus, read: RegistrationStatus)
    ensures Onward(s.crm, UpdateStatus(s, r, st, read).crm)
  {
  }

  lemma InboundIsOnward(s: State, r: nat, i: Intent, m: nat, id: Option<string>, read: RegistrationStatus)
    ensures Onward(s.crm, RecordInbound(s, r, i, m, id, read).crm)
  {
    if r in s.crm.registrations { ReplyIsOnward(s.crm, r, WrittenByReply(read, i), COMMERCIAL_FOLLOW_UP); }
  }

  lemma ReplyIsOnward(crm: Crm, r: nat, written: Option<RegistrationStatus>, p: Purpose)
    requires r in crm.registrations
    ensures var crm' := AfterReply(crm, r, written);
      Onward(crm, crm') && Onward(crm, SuppressLead(crm', crm.registrations[r].event, crm.registrations[r].lead, p))
  {
  }

  lemma TokenIsOnward(s: State, t: nat, now: int)
    ensures Onward(s.crm, ConsumePublicAction(s, t, now).crm)
  {
    if ConsumePublicAction(s, t, now) != s {
      var token := s.cadence.tokens[t];
      var st := StatusAfterToken(s.crm.registrations[token.registration].status, token.kind);
      ReplyIsOnward(s.crm, token.registration, Some(st), token.purpose);
    }
  }

  lemma WithdrawIsOnward(s: State, l: nat, p: Purpose, seen: set<nat>)
    ensures Onward(s.crm, Withdraw(s, l, p, seen).crm)
  {
  }

  lemma WebhookIsOnward(s: State, m: nat, receipt: string, kind: WebhookKind, read: MessageStatus)
    ensures Onward(s.crm, ProcessEmailWebhook(s, m, receipt, kind, read).crm)
  {
  }

  lemma EraseIsOnward(s: State, l: nat)
    ensures Onward(s.crm, DeleteLeadData(s, l).crm)
  {
  }

  lemma EventsAreOnward(crm: Crm, e: nat, row: EventRow, to: EventStatus, read: EventStatus)
    ensures Onward(crm, AddEvent(crm, e, row)) && Onward(crm, SetEventStatus(crm, e, to, read))
  {
  }

  lemma BookIsOnward(s: State, r: nat, slot: Slot, seen: multiset<Slot>)
    ensures Onward(s.crm, BookMeeting(s, r, slot, seen).crm)
  {
  }

  lemma AdmissionIsOnward(s: State, op: Operation)
    requires Admits(op)
    ensures Onward(s.crm, ApplyApi(s, op).crm)
  {
    match op {
      case CreateEvent(e, row) => EventsAreOnward(s.crm, e, row, DRAFT, DRAFT);
      case MoveEvent(e, to, read) => EventsAreOnward(s.crm, e, NO_EVENT, to, read);
      case RegisterForEvent(e, email, commercial, l, r) => RegisterIsOnward(s.crm, e, email, commercial, l, r);
      case OperatorStatus(r, st, read) => UpdateIsOnward(s, r, st, read);
      case Inbound(r, i, m, id, read) => InboundIsOnward(s, r, i, m, id, read);
      case PublicAction(t, now) => TokenIsOnward(s, t, now);
    }
  }

  lemma SameIsOnward(crm: Crm)
    ensures Onward(crm, crm)
  {
  }

  lemma OperationIsOnward(s: State, op: Operation)
    ensures Onward(s.crm, ApplyApi(s, op).crm)
  {
    if Admits(op) {
      AdmissionIsOnward(s, op);
    } else {
      match op {
        case Book(r, slot, seen) => BookIsOnward(s, r, slot, seen);
        case WithdrawFor(l, p, seen) => WithdrawIsOnward(s, l, p, seen);
        case Webhook(m, receipt, kind, read) => WebhookIsOnward(s, m, receipt, kind, read);
        case Erase(l) => EraseIsOnward(s, l);
        case Enrich(_, _, _) => SameIsOnward(s.crm);
        case IssueToken(_, _) => SameIsOnward(s.crm);
      }
    }
  }

  /** Whoever takes the step, and however old its readings are: registrations and capacities stand, meetings are
      not unbooked, nobody is unblocked, and consent comes only with a new registration. */
  lemma StepIsOnward(s: State, step: Step)
    ensures Onward(s.crm, Apply(s, step).crm)
  {
    match step {
      case Api(op) => OperationIsOnward(s, op);
      case Dispatcher(d, move) =>
        MovesLeaveCrm(s, d, move);
        SameIsOnward(s.crm);
    }
  }

  /** Events keep their capacity. */
  lemma {:induction false} CapacityIsFixed(s: State, steps: seq<Step>, e: nat)
    requires e in s.crm.events
    ensures e in Run(s, steps).crm.events && Run(s, steps).crm.events[e].capacity == s.crm.events[e].capacity
  {
    if steps != [] {
      CapacityIsFixed(s, steps[..|steps| - 1], e);
      StepIsOnward(Run(s, steps[..|steps| - 1]), steps[|steps| - 1]);
    }
  }

  lemma {:induction false} RowsStay(s: State, steps: seq<Step>)
    ensures KeepsRegistrations(s.crm, Run(s, steps).crm) && s.crm.leads.Keys <= Run(s, steps).crm.leads.Keys
  {
    if steps != [] {
      RowsStay(s, steps[..|steps| - 1]);
      StepIsOnward(Run(s, steps[..|steps| - 1]), steps[|steps| - 1]);
    }
  }

  // ---- The transition table ----

  predicate Follows(from: RegistrationStatus, to: RegistrationStatus) { from == to || CanMove(from, to) }

  /** Statuses change only along the transition table. */
  ghost predicate FollowsTable(crm: Crm, crm': Crm) {
    forall r :: r in crm.registrations && r in crm'.registrations ==>
      Follows(crm.registrations[r].status, crm'.registrations[r].status)
  }

  /** A write that the table allows for the status read stays in the table exactly when it is harmless. */
  lemma WriteFollowsExactly(st: RegistrationStatus, read: RegistrationStatus, to: RegistrationStatus)
    requires CanMove(read, to)
    ensures Follows(st, to) <==> HarmlessWrite(st, read, to)
  {
  }

  /** Only the status of `r` may have changed. */
  ghost predicate OnlyStatusOf(crm: Crm, crm': Crm, r: nat) {
    && crm'.registrations.Keys == crm.registrations.Keys
    && forall q :: q in crm.registrations && q != r ==> crm'.registrations[q] == crm.registrations[q]
  }

  lemma UpdateFollowsExactly(s: State, r: nat, st: RegistrationStatus, read: RegistrationStatus)
    ensures FollowsTable(s.crm, UpdateStatus(s, r, st, read).crm) <==> HarmlessOp(s.crm, OperatorStatus(r, st, read))
  {
    var crm' := UpdateStatus(s, r, st, read).crm;
    if r in s.crm.registrations && CanMove(read, st) {
      WriteFollowsExactly(s.crm.registrations[r].status, read, st);
      assert OnlyStatusOf(s.crm, crm', r) && crm'.registrations[r].status == st;
      assert !Follows(s.crm.registrations[r].status, st) ==> !FollowsTable(s.crm, crm');
    }
  }

  lemma InboundFollowsExactly(s: State, r: nat, i: Intent, m: nat, id: Option<string>, read: RegistrationStatus)
    ensures HarmlessOp(s.crm, Inbound(r, i, m, id, read)) ==>
      FollowsTable(s.crm, RecordInbound(s, r, i, m, id, read).crm)
    ensures FollowsTable(s.crm, RecordInbound(s, r, i, m, id, read).crm) && RecordInbound(s, r, i, m, id, read) != s ==>
      HarmlessOp(s.crm, Inbound(r, i, m, id, read))
  {
    var crm', written := RecordInbound(s, r, i, m, id, read).crm, WrittenByReply(read, i);
    if RecordInbound(s, r, i, m, id, read) != s && written.Some? {
      WriteFollowsExactly(s.crm.registrations[r].status, read, written.value);
      assert OnlyStatusOf(s.crm, crm', r) && crm'.registrations[r].status == written.value;
      assert !Follows(s.crm.registrations[r].status, written.value) ==> !FollowsTable(s.crm, crm');
    }
  }

  lemma TokenFollows(s: State, t: nat, now: int)
    ensures FollowsTable(s.crm, ConsumePublicAction(s, t, now).crm)
  {
  }

  lemma RegisterFollows(crm: Crm, e: nat, email: string, commercial: bool, l: nat, r: nat)
    ensures FollowsTable(crm, Register(crm, e, email, commercial, l, r))
  {
  }

  /** Operations that move no registration. */
  lemma OthersMoveNobody(s: State, op: Operation)
    requires !op.RegisterForEvent? && !op.OperatorStatus? && !op.Inbound? && !op.PublicAction?
    ensures ApplyApi(s, op).crm.registrations == s.crm.registrations
  {
    match op { case _ => }
  }

  /** A step that changes anything stays in the transition table exactly when what it has read is harmless. */
  lemma StepFollowsExactly(s: State, step: Step)
    ensures Harmless(s, step) ==> FollowsTable(s.crm, Apply(s, step).crm)
    ensures FollowsTable(s.crm, Apply(s, step).crm) && Apply(s, step) != s ==> Harmless(s, step)
  {
    match step {
      case Api(op) =>
        match op {
          case OperatorStatus(r, st, read) => UpdateFollowsExactly(s, r, st, read);
          case Inbound(r, i, m, id, read) => InboundFollowsExactly(s, r, i, m, id, read);
          case PublicAction(t, now) => TokenFollows(s, t, now);
          case RegisterForEvent(e, email, commercial, l, r) => RegisterFollows(s.crm, e, email, commercial, l, r);
          case _ => OthersMoveNobody(s, op);
        }
      case Dispatcher(d, move) => MovesLeaveCrm(s, d, move);
    }
  }

  /** How far along the table a status is. */
  function Rank(st: RegistrationStatus): nat {
    match st
    case WAITLISTED => 0
    case REGISTERED => 1
    case CONFIRMED => 2
    case _ => 3
  }

  ghost function StatusIn(s: State, r: nat): RegistrationStatus
    requires r in s.crm.registrations
  {
    s.crm.registrations[r].status
  }

  /** The number of status changes of a registration along a run. */
  ghost function Moves(s: State, steps: seq<Step>, r: nat): nat
    requires r in s.crm.registrations
  {
    if steps == [] then 0
    else
      var before, after := Run(s, steps[..|steps| - 1]), Run(s, steps);
      Moves(s, steps[..|steps| - 1], r)
      + (if r in before.crm.registrations && r in after.crm.registrations && StatusIn(before, r) == StatusIn(after, r)
         then 0 else 1)
  }

  /** Every change of the status of `r` along a run is in the transition table. */
  ghost predicate IsPath(s: State, steps: seq<Step>, r: nat) {
    steps != [] ==>
      var before, after := Run(s, steps[..|steps| - 1]), Run(s, steps);
      && IsPath(s, steps[..|steps| - 1], r)
      && (r in before.crm.registrations && r in after.crm.registrations ==>
        Follows(StatusIn(before, r), StatusIn(after, r)))
  }

  /** Through every entry point, while nobody harms with an old reading, a status history is a path in the
      table: it takes at most three moves, and DECLINED, ATTENDED and NO_SHOW are never left. */
  lemma {:induction false} HistoryIsAPath(s: State, steps: seq<Step>, r: nat)
    requires r in s.crm.registrations && AllHarmless(s, steps)
    ensures r in Run(s, steps).crm.registrations && IsPath(s, steps, r)
    ensures Moves(s, steps, r) + Rank(StatusIn(s, r)) <= Rank(StatusIn(Run(s, steps), r)) <= 3
    ensures Rank(StatusIn(s, r)) == 3 ==> StatusIn(Run(s, steps), r) == StatusIn(s, r)
  {
    if steps != [] {
      var before := Run(s, steps[..|steps| - 1]);
      HistoryIsAPath(s, steps[..|steps| - 1], r);
      StepIsOnward(before, steps[|steps| - 1]);
      StepFollowsExactly(before, steps[|steps| - 1]);
    }
  }

  /** Every step of a run changes something. */
  predicate NoIdling(s: State, steps: seq<Step>) {
    steps != [] ==>
      NoIdling(s, steps[..|steps| - 1]) && Run(s, steps) != Run(s, steps[..|steps| - 1])
  }

  ghost predicate AllPaths(s: State, steps: seq<Step>) {
    steps != [] ==>
      AllPaths(s, steps[..|steps| - 1]) && FollowsTable(Run(s, steps[..|steps| - 1]).crm, Run(s, steps).crm)
  }

  /** For runs without idle steps, all histories are paths exactly when every step is harmless. */
  lemma {:induction false} PathsExactlyWhenHarmless(s: State, steps: seq<Step>)
    requires NoIdling(s, steps)
    ensures AllPaths(s, steps) <==> AllHarmless(s, steps)
  {
    if steps != [] {
      PathsExactlyWhenHarmless(s, steps[..|steps| - 1]);
      StepFollowsExactly(Run(s, steps[..|steps| - 1]), steps[|steps| - 1]);
    }
  }

  // ---- Moves off the waiting list ----

  /** The registrations of `e` that a step moves off the waiting list. */
  ghost function MovedUp(crm: Crm, crm': Crm, e: nat): set<nat> {
    set r | r in crm.registrations && r in crm'.registrations && crm.registrations[r].event == e
      && crm.registrations[r].status.WAITLISTED? && crm'.registrations[r].status.REGISTERED?
  }

  ghost predicate CountsMovedUp(crm: Crm, crm': Crm) {
    forall e :: crm'.promotions[e] == crm.promotions[e] + |MovedUp(crm, crm', e)|
  }

  lemma NobodyMovedUp(crm: Crm, crm': Crm)
    requires crm'.promotions == crm.promotions
    requires forall r :: r in crm.registrations && r in crm'.registrations ==>
      !(crm.registrations[r].status.WAITLISTED? && crm'.registrations[r].status.REGISTERED?)
    ensures CountsMovedUp(crm, crm') && forall e :: MovedUp(crm, crm', e) == {}
  {
    assert forall e :: MovedUp(crm, crm', e) == {};
  }

  lemma UpdateCountsMovedUp(s: State, r: nat, st: RegistrationStatus, read: RegistrationStatus)
    ensures CountsMovedUp(s.crm, UpdateStatus(s, r, st, read).crm)
    ensures !st.REGISTERED? ==> forall e :: MovedUp(s.crm, UpdateStatus(s, r, st, read).crm, e) == {}
  {
    var crm' := UpdateStatus(s, r, st, read).crm;
    if r in s.crm.registrations && CanMove(read, st) && s.crm.registrations[r].status.WAITLISTED? && st.REGISTERED? {
      var f := s.crm.registrations[r].event;
      forall e ensures MovedUp(s.crm, crm', e) == if e == f then {r} else {} { }
    } else {
      NobodyMovedUp(s.crm, crm');
    }
  }

  lemma InboundMovesNobodyUp(s: State, r: nat, i: Intent, m: nat, id: Option<string>, read: RegistrationStatus)
    ensures var crm' := RecordInbound(s, r, i, m, id, read).crm;
      CountsMovedUp(s.crm, crm') && forall e :: MovedUp(s.crm, crm', e) == {}
  {
    NobodyMovedUp(s.crm, RecordInbound(s, r, i, m, id, read).crm);
  }

  lemma TokenMovesNobodyUp(s: State, t: nat, now: int)
    ensures var crm' := ConsumePublicAction(s, t, now).crm;
      CountsMovedUp(s.crm, crm') && forall e :: MovedUp(s.crm, crm', e) == {}
  {
    NobodyMovedUp(s.crm, ConsumePublicAction(s, t, now).crm);
  }

  lemma OthersMoveNobodyUp(s: State, op: Operation)
    requires !op.OperatorStatus? && !op.Inbound? && !op.PublicAction?
    ensures var crm' := ApplyApi(s, op).crm; CountsMovedUp(s.crm, crm') && forall e :: MovedUp(s.crm, crm', e) == {}
  {
    if op.RegisterForEvent? {
      NobodyMovedUp(s.crm, Register(s.crm, op.e, op.email, op.commercial, op.l, op.r));
    } else {
      OthersMoveNobody(s, op);
      OthersPromoteNobody(s, op);
      NobodyMovedUp(s.crm, ApplyApi(s, op).crm);
    }
  }

  lemma OthersPromoteNobody(s: State, op: Operation)
    requires !op.RegisterForEvent? && !op.OperatorStatus? && !op.Inbound? && !op.PublicAction?
    ensures ApplyApi(s, op).crm.promotions == s.crm.promotions
  {
    match op { case _ => }
  }

  predicate Promotes(step: Step) { step.Api? && step.op.OperatorStatus? && step.op.st.REGISTERED? }

  /** Only an operator moves anybody off the waiting list, and every such move is counted. */
  lemma OnlyOperatorsPromote(s: State, step: Step)
    ensures CountsMovedUp(s.crm, Apply(s, step).crm)
    ensures forall e :: MovedUp(s.crm, Apply(s, step).crm, e) != {} ==> Promotes(step)
  {
    match step {
      case Api(op) =>
        match op {
          case OperatorStatus(r, st, read) => UpdateCountsMovedUp(s, r, st, read);
          case Inbound(r, i, m, id, read) => InboundMovesNobodyUp(s, r, i, m, id, read);
          case PublicAction(t, now) => TokenMovesNobodyUp(s, t, now);
          case _ => OthersMoveNobodyUp(s, op);
        }
      case Dispatcher(d, move) =>
        MovesLeaveCrm(s, d, move);
        NobodyMovedUp(s.crm, s.crm);
    }
  }

  /** The moves off the waiting list of `e` that happen along a run. */
  ghost function MovesUpIn(steps: seq<Step>, e: nat): nat {
    if steps == [] then 0
    else
      var before := steps[..|steps| - 1];
      MovesUpIn(before, e) + |MovedUp(Run(INITIAL, before).crm, Run(INITIAL, steps).crm, e)|
  }

  lemma {:induction false} PromotionsAreMoves(steps: seq<Step>, e: nat)
    ensures Run(INITIAL, steps).crm.promotions[e] == MovesUpIn(steps, e)
  {
    if steps != [] {
      PromotionsAreMoves(steps[..|steps| - 1], e);
      OnlyOperatorsPromote(Run(INITIAL, steps[..|steps| - 1]), steps[|steps| - 1]);
      assert CountsMovedUp(Run(INITIAL, steps[..|steps| - 1]).crm, Run(INITIAL, steps).crm);
    }
  }

  // ---- Seats ----

  /** Occupied seats exceed the capacity by no more than the operator has moved off the waiting list. */
  ghost predicate NotOversold(crm: Crm) {
    forall e :: e in crm.events ==> |Seats(crm, e)| <= crm.events[e].capacity + crm.promotions[e]
  }

  /** The registrations of `e` whose status changes into one that takes a seat. */
  ghost function Seated(crm: Crm, crm': Crm, e: nat): set<nat> {
    set r | r in crm.registrations && r in crm'.registrations && crm.registrations[r].event == e
      && !TakesSeat(crm.registrations[r].status) && TakesSeat(crm'.registrations[r].status)
  }

  lemma SubsetSize<T>(a: set<T>, b: set<T>)
    requires a <= b
    ensures |a| <= |b|
  {
    if a != {} {
      var x :| x in a;
      SubsetSize(a - {x}, b - {x});
    }
  }

  /** Apart from registering and adding events, operations keep the rows there are. */
  lemma OthersKeepRows(s: State, op: Operation)
    requires !op.RegisterForEvent? && !op.CreateEvent?
    ensures ApplyApi(s, op).crm.registrations.Keys == s.crm.registrations.Keys
    ensures ApplyApi(s, op).crm.events.Keys == s.crm.events.Keys
  {
    match op {
      case OperatorStatus(r, st, read) =>
        assert UpdateStatus(s, r, st, read).crm.registrations.Keys == s.crm.registrations.Keys;
      case Inbound(r, i, m, id, read) =>
        assert RecordInbound(s, r, i, m, id, read).crm.registrations.Keys == s.crm.registrations.Keys;
      case PublicAction(t, now) =>
        assert ConsumePublicAction(s, t, now).crm.registrations.Keys == s.crm.registrations.Keys;
      case _ => OthersMoveNobody(s, op);
    }
  }

  /** Apart from registrations and new events, seats are taken only by status changes. */
  lemma SeatsOnlyBySeating(s: State, step: Step, e: nat)
    requires step.Api? ==> !step.op.RegisterForEvent? && !step.op.CreateEvent?
    ensures Seats(Apply(s, step).crm, e) <= Seats(s.crm, e) + Seated(s.crm, Apply(s, step).crm, e)
  {
    StepIsOnward(s, step);
    if step.Api? { OthersKeepRows(s, step.op); } else { MovesLeaveCrm(s, step.d, step.move); }
  }

  /** The status changes into a seat of `e` along a run. */
  ghost function SeatedIn(steps: seq<Step>, e: nat): nat {
    if steps == [] then 0
    else
      var before := steps[..|steps| - 1];
      SeatedIn(before, e) + |Seated(Run(INITIAL, before).crm, Run(INITIAL, steps).crm, e)|
  }

  lemma EnterSeats(
      crm: Crm, e: nat, email: string, commercial: bool, l: nat, r: nat, st: RegistrationStatus, f: nat)
    requires r !in crm.registrations
    ensures Seats(Enter(crm, e, email, commercial, l, r, st), f)
      == if f == e && TakesSeat(st) then Seats(crm, f) + {r} else Seats(crm, f)
  {
  }

  /** Registering takes a seat only where one is free. */
  lemma RegisterTakesFreeSeats(crm: Crm, e: nat, email: string, commercial: bool, l: nat, r: nat, f: nat)
    requires f in crm.events
    ensures var crm' := Register(crm, e, email, commercial, l, r);
      |Seats(crm', f)| <= |Seats(crm, f)| || |Seats(crm', f)| <= crm.events[f].capacity
  {
    if Register(crm, e, email, commercial, l, r) != crm {
      EnterSeats(crm, e, email, commercial, l, r, EntryStatus(crm, e), f);
    }
  }

  lemma NewEventHasNoSeats(crm: Crm, e: nat, row: EventRow, f: nat)
    requires CrmOk(crm) && f in AddEvent(crm, e, row).events
    ensures Seats(AddEvent(crm, e, row), f) == if f in crm.events then Seats(crm, f) else {}
  {
  }

  /** Whatever old readings are about: an event's occupied seats exceed its capacity by at most the status
      changes into a seat that happen in the run. */
  lemma {:induction false} SeatsAreBounded(steps: seq<Step>, e: nat)
    requires e in Run(INITIAL, steps).crm.events
    ensures var crm := Run(INITIAL, steps).crm; |Seats(crm, e)| <= crm.events[e].capacity + SeatedIn(steps, e)
  {
    if steps != [] {
      var before, step := steps[..|steps| - 1], steps[|steps| - 1];
      var s := Run(INITIAL, before);
      RunKeepsCrm(before);
      StepIsOnward(s, step);
      if step.Api? && step.op.CreateEvent? {
        NewEventHasNoSeats(s.crm, step.op.e, step.op.row, e);
      } else if step.Api? && step.op.RegisterForEvent? {
        RegisterTakesFreeSeats(s.crm, step.op.e, step.op.email, step.op.commercial, step.op.l, step.op.r, e);
      } else {
        if step.Api? { OthersKeepRows(s, step.op); } else { MovesLeaveCrm(s, step.d, step.move); }
        SeatsOnlyBySeating(s, step, e);
        SubsetSize(Seats(Apply(s, step).crm, e), Seats(s.crm, e) + Seated(s.crm, Apply(s, step).crm, e));
      }
      if e in s.crm.events { SeatsAreBounded(before, e); }
    }
  }

  /** The status that a step writes, and over which registration, without looking at it. */
  function Writes(s: State, step: Step): Option<(nat, RegistrationStatus)> {
    match step
    case Api(OperatorStatus(r, st, read)) =>
      if r in s.crm.registrations && CanMove(read, st) then Some((r, st)) else None
    case Api(Inbound(r, i, m, id, read)) =>
      if RecordInbound(s, r, i, m, id, read) != s && WrittenByReply(read, i).Some?
      then Some((r, WrittenByReply(read, i).value)) else None
    case _ => None
  }

  /** The step writes a status that takes a seat over one that does not, and it is no move off the waiting list. */
  predicate TakesNewSeat(s: State, step: Step) {
    var w := Writes(s, step);
    && w.Some? && w.value.0 in s.crm.registrations
    && var st := s.crm.registrations[w.value.0].status;
       !TakesSeat(st) && TakesSeat(w.value.1) && !(st.WAITLISTED? && w.value.1.REGISTERED?)
  }

  predicate Full(crm: Crm, e: nat) {
    e in crm.events && |Seats(crm, e)| >= crm.events[e].capacity + crm.promotions[e]
  }

  /** The check that the code lacks: the step takes a new seat in an event that is full. */
  predicate Oversells(s: State, step: Step) {
    TakesNewSeat(s, step) && Full(s.crm, s.crm.registrations[Writes(s, step).value.0].event)
  }

  lemma WritesWrite(s: State, step: Step)
    requires Writes(s, step).Some?
    ensures var (r, st) := Writes(s, step).value; var crm' := Apply(s, step).crm;
      && r in s.crm.registrations && OnlyStatusOf(s.crm, crm', r) && crm'.events == s.crm.events
      && crm'.registrations[r] == s.crm.registrations[r].(status := st)
  {
    match step {
      case Api(OperatorStatus(r, st, read)) => assert OnlyStatusOf(s.crm, UpdateStatus(s, r, st, read).crm, r);
      case Api(Inbound(r, i, m, id, read)) => assert OnlyStatusOf(s.crm, RecordInbound(s, r, i, m, id, read).crm, r);
    }
  }

  lemma LinksSeatNobody(s: State, t: nat, now: int, e: nat)
    ensures Seated(s.crm, ConsumePublicAction(s, t, now).crm, e) == {}
  {
  }

  /** Apart from moves off the waiting list, only a step that takes a new seat seats anybody. */
  lemma OthersSeatOnlyMovedUp(s: State, step: Step, e: nat)
    requires !TakesNewSeat(s, step)
    ensures Seated(s.crm, Apply(s, step).crm, e) == MovedUp(s.crm, Apply(s, step).crm, e)
  {
    var crm' := Apply(s, step).crm;
    if Writes(s, step).Some? {
      WritesWrite(s, step);
    } else {
      match step {
        case Api(op) =>
          match op {
            case OperatorStatus(r, st, read) => assert UpdateStatus(s, r, st, read) == s;
            case Inbound(r, i, m, id, read) => ReplyWithoutWrite(s, r, i, m, id, read);
            case PublicAction(t, now) => LinksSeatNobody(s, t, now, e);
            case RegisterForEvent(f, email, commercial, l, r) =>
              assert forall q :: q in s.crm.registrations ==> crm'.registrations[q] == s.crm.registrations[q];
            case _ => OthersMoveNobody(s, op);
          }
        case Dispatcher(d, move) => MovesLeaveCrm(s, d, move);
      }
    }
  }

  lemma ReplyWithoutWrite(s: State, r: nat, i: Intent, m: nat, id: Option<string>, read: RegistrationStatus)
    requires Writes(s, Api(Inbound(r, i, m, id, read))).None?
    ensures RecordInbound(s, r, i, m, id, read).crm.registrations == s.crm.registrations
  {
  }

  lemma EventStaysSold(s: State, step: Step, e: nat)
    requires CrmOk(s.crm) && NotOversold(s.crm) && !TakesNewSeat(s, step) && e in Apply(s, step).crm.events
    ensures var crm' := Apply(s, step).crm; |Seats(crm', e)| <= crm'.events[e].capacity + crm'.promotions[e]
  {
    StepIsOnward(s, step);
    OnlyOperatorsPromote(s, step);
    assert CountsMovedUp(s.crm, Apply(s, step).crm);
    if step.Api? && step.op.CreateEvent? {
      NewEventHasNoSeats(s.crm, step.op.e, step.op.row, e);
    } else if step.Api? && step.op.RegisterForEvent? {
      RegisterTakesFreeSeats(s.crm, step.op.e, step.op.email, step.op.commercial, step.op.l, step.op.r, e);
    } else {
      if step.Api? { OthersKeepRows(s, step.op); } else { MovesLeaveCrm(s, step.d, step.move); }
      SeatsOnlyBySeating(s, step, e);
      OthersSeatOnlyMovedUp(s, step, e);
      SubsetSize(Seats(Apply(s, step).crm, e), Seats(s.crm, e) + MovedUp(s.crm, Apply(s, step).crm, e));
    }
  }

  lemma OneMoreSeat(crm: Crm, crm': Crm, r: nat, e: nat)
    requires r in crm.registrations && OnlyStatusOf(crm, crm', r)
    requires !TakesSeat(crm.registrations[r].status) && TakesSeat(crm'.registrations[r].status)
    requires crm'.registrations[r].event == crm.registrations[r].event
    ensures |Seats(crm', e)| == |Seats(crm, e)| + if e == crm.registrations[r].event then 1 else 0
  {
    if e == crm.registrations[r].event {
      assert Seats(crm', e) == Seats(crm, e) + {r} && r !in Seats(crm, e);
    } else {
      assert Seats(crm', e) == Seats(crm, e);
    }
  }

  lemma NewSeatIsNoPromotion(s: State, step: Step, e: nat)
    requires TakesNewSeat(s, step)
    ensures Apply(s, step).crm.promotions[e] == s.crm.promotions[e]
  {
    WritesWrite(s, step);
    OnlyOperatorsPromote(s, step);
    assert MovedUp(s.crm, Apply(s, step).crm, e) == {};
    assert CountsMovedUp(s.crm, Apply(s, step).crm);
  }

  lemma NewSeatCounts(s: State, step: Step)
    requires CrmOk(s.crm) && NotOversold(s.crm) && TakesNewSeat(s, step)
    ensures NotOversold(Apply(s, step).crm) <==> !Oversells(s, step)
  {
    WritesWrite(s, step);
    var crm', r := Apply(s, step).crm, Writes(s, step).value.0;
    var f := s.crm.registrations[r].event;
    forall e | e in s.crm.events
      ensures |Seats(crm', e)| == |Seats(s.crm, e)| + (if e == f then 1 else 0)
      ensures crm'.promotions[e] == s.crm.promotions[e]
    {
      OneMoreSeat(s.crm, crm', r, e);
      NewSeatIsNoPromotion(s, step, e);
    }
    assert f in s.crm.events;
  }

  /** A step keeps an event from being oversold exactly unless it takes a new seat in a full one. */
  lemma KeepsSeatsExactly(s: State, step: Step)
    requires CrmOk(s.crm) && NotOversold(s.crm)
    ensures NotOversold(Apply(s, step).crm) <==> !Oversells(s, step)
  {
    if TakesNewSeat(s, step) {
      NewSeatCounts(s, step);
    } else {
      forall e | e in Apply(s, step).crm.events
        ensures var crm' := Apply(s, step).crm; |Seats(crm', e)| <= crm'.events[e].capacity + crm'.promotions[e]
      {
        EventStaysSold(s, step, e);
      }
    }
  }

  predicate NeverOversells(s: State, steps: seq<Step>) {
    steps != [] ==>
      NeverOversells(s, steps[..|steps| - 1]) && !Oversells(Run(s, steps[..|steps| - 1]), steps[|steps| - 1])
  }

  ghost predicate AlwaysNotOversold(s: State, steps: seq<Step>) {
    NotOversold(Run(s, steps).crm) && (steps != [] ==> AlwaysNotOversold(s, steps[..|steps| - 1]))
  }

  /** Along a run no event is ever oversold exactly when no step takes a new seat in a full one. */
  lemma {:induction false} NeverOversoldExactly(steps: seq<Step>)
    ensures AlwaysNotOversold(INITIAL, steps) <==> NeverOversells(INITIAL, steps)
  {
    if steps != [] {
      var before := steps[..|steps| - 1];
      NeverOversoldExactly(before);
      RunKeepsCrm(before);
      if AlwaysNotOversold(INITIAL, before) {
        assert NotOversold(Run(INITIAL, before).crm);
        KeepsSeatsExactly(Run(INITIAL, before), steps[|steps| - 1]);
      }
    }
  }

  /** What is harmless takes no new seat. */
  lemma HarmlessTakesNoNewSeat(s: State, step: Step)
    requires Harmless(s, step)
    ensures !TakesNewSeat(s, step)
  {
  }

  lemma {:induction false} HarmlessNeverOversells(s: State, steps: seq<Step>)
    requires AllHarmless(s, steps)
    ensures NeverOversells(s, steps)
  {
    if steps != [] {
      HarmlessNeverOversells(s, steps[..|steps| - 1]);
      HarmlessTakesNoNewSeat(Run(s, steps[..|steps| - 1]), steps[|steps| - 1]);
    }
  }

  /** So registration, public links and replies never oversell: as long as no step takes a new seat in a full
      event, in particular while nobody harms with an old reading, occupied seats exceed the capacity by at most
      the moves off the event's waiting list that happen in the run. */
  lemma SeatsAreRespected(steps: seq<Step>, e: nat)
    requires e in Run(INITIAL, steps).crm.events
    ensures AllHarmless(INITIAL, steps) ==> NeverOversells(INITIAL, steps)
    ensures NeverOversells(INITIAL, steps) ==>
      var crm := Run(INITIAL, steps).crm; |Seats(crm, e)| <= crm.events[e].capacity + MovesUpIn(steps, e)
  {
    if AllHarmless(INITIAL, steps) { HarmlessNeverOversells(INITIAL, steps); }
    NeverOversoldExactly(steps);
    PromotionsAreMoves(steps, e);
  }

  // ---- Meetings ----

  ghost predicate SlotsApart(slots: multiset<Slot>) {
    && (forall a :: a in slots ==> a.startsAt < a.endsAt && slots[a] == 1)
    && (forall a, b :: a in slots && b in slots && a != b ==> !Overlaps(a, b))
  }

  /** A booking, if it is made, finds its slot free then, whatever the search for a conflict found before. */
  predicate BooksFree(s: State, step: Step) {
    step.Api? && step.op.Book? && BookMeeting(s, step.op.r, step.op.slot, step.op.seen) != s ==>
      SlotFree(s.crm.slots, step.op.slot)
  }

  predicate AllBookFree(s: State, steps: seq<Step>) {
    steps != [] ==>
      AllBookFree(s, steps[..|steps| - 1]) && BooksFree(Run(s, steps[..|steps| - 1]), steps[|steps| - 1])
  }

  lemma OneMoreSlot(slots: multiset<Slot>, slot: Slot)
    requires slot.startsAt < slot.endsAt
    ensures SlotsApart(slots + multiset{slot}) <==> SlotsApart(slots) && SlotFree(slots, slot)
  {
    var slots' := slots + multiset{slot};
    if SlotsApart(slots') {
      assert slot in slots' && slots'[slot] == 1;
      forall x | x in slots ensures !Overlaps(x, slot) && slots[x] == 1 { assert x in slots' && slots'[x] == 1; }
      forall a, b | a in slots && b in slots && a != b ensures !Overlaps(a, b) { assert a in slots' && b in slots'; }
    }
  }

  /** A booking that is made keeps meetings apart exactly when its slot is free at that time. */
  lemma BookingKeepsApartExactly(s: State, r: nat, slot: Slot, seen: multiset<Slot>)
    requires BookMeeting(s, r, slot, seen) != s
    ensures SlotsApart(BookMeeting(s, r, slot, seen).crm.slots) <==>
      SlotsApart(s.crm.slots) && SlotFree(s.crm.slots, slot)
  {
    OneMoreSlot(s.crm.slots, slot);
  }

  lemma OthersBookNothing(s: State, op: Operation)
    requires !op.Book?
    ensures ApplyApi(s, op).crm.slots == s.crm.slots
  {
    match op {
      case OperatorStatus(r, st, read) => assert UpdateStatus(s, r, st, read).crm.slots == s.crm.slots;
      case Inbound(r, i, m, id, read) => assert RecordInbound(s, r, i, m, id, read).crm.slots == s.crm.slots;
      case PublicAction(t, now) => assert ConsumePublicAction(s, t, now).crm.slots == s.crm.slots;
      case _ =>
    }
  }

  /** No two meetings overlap exactly when every booking that is made finds its slot free then. */
  lemma {:induction false} MeetingsApartExactly(steps: seq<Step>)
    ensures SlotsApart(Run(INITIAL, steps).crm.slots) <==> AllBookFree(INITIAL, steps)
  {
    if steps != [] {
      MeetingsApartExactly(steps[..|steps| - 1]);
      var s, step := Run(INITIAL, steps[..|steps| - 1]), steps[|steps| - 1];
      match step {
        case Api(op) =>
          if !op.Book? {
            OthersBookNothing(s, op);
          } else if BookMeeting(s, op.r, op.slot, op.seen) != s {
            BookingKeepsApartExactly(s, op.r, op.slot, op.seen);
          }
        case Dispatcher(d, move) => MovesLeaveCrm(s, d, move);
      }
    }
  }

  // ---- Refusal is permanent ----

  /** What makes the policy refuse a registration for a purpose whatever its status, quiet hours and the
      message limit apart. */
  ghost predicate Barred(crm: Crm, r: nat, p: Purpose)
    requires r in crm.registrations
  {
    var reg := crm.registrations[r];
    || Consent(reg.event, reg.lead, p) !in crm.consents
    || Blocked(crm, reg.lead, p)
    || r in crm.meetings
  }

  ghost predicate Doomed(crm: Crm, r: nat, p: Purpose)
    requires r in crm.registrations
  {
    Barred(crm, r, p) || crm.registrations[r].status.DECLINED?
  }

  /** Registrations are unique, so no consent is given again, and meetings are not unbooked. */
  lemma BarredStays(s: State, step: Step, r: nat, p: Purpose)
    requires r in s.crm.registrations && Barred(s.crm, r, p)
    ensures r in Apply(s, step).crm.registrations && Barred(Apply(s, step).crm, r, p)
  {
    var reg := s.crm.registrations[r];
    StepIsOnward(s, step);
    assert RegisteredFor(s.crm, reg.event, reg.lead);
    assert KeepsBlocks(s.crm, Apply(s, step).crm) && ConsentsWithRegistration(s.crm, Apply(s, step).crm);
  }

  /** And DECLINED is not left without harm, so a refusal is final. */
  lemma DoomedStays(s: State, step: Step, r: nat, p: Purpose)
    requires r in s.crm.registrations && Doomed(s.crm, r, p) && Harmless(s, step)
    ensures r in Apply(s, step).crm.registrations && Doomed(Apply(s, step).crm, r, p)
  {
    StepIsOnward(s, step);
    StepFollowsExactly(s, step);
    if Barred(s.crm, r, p) { BarredStays(s, step, r, p); }
  }
}
