/** What every run keeps of cadence actions, messages and what has been mailed. */
module EngagementCadence {
  import opened CommunicationPolicy
  import opened Engagement
  import opened EngagementCrm

  // ---- The invariant ----

  /** Every action belongs to a registration. */
  ghost predicate ActionsOk(registrations: map<nat, Registration>, actions: map<ActionKey, Action>) {
    forall k :: k in actions ==>
      && actions[k].registration in registrations
      && (k.CadenceKey? ==> actions[k].registration == k.registration)
  }

  predicate ShapeOk(p: Phase) {
    match p
    case Drafting(key) => key.CadenceKey?
    case Sending(key, m, _) => key == SendKey(m)
    case Accepted(key, m) => key == SendKey(m)
    case _ => true
  }

  /** A held action is being dispatched, or was cancelled under its dispatcher; nobody else holds it. */
  ghost predicate HoldersOk(actions: map<ActionKey, Action>, dispatchers: map<nat, Phase>) {
    && (forall d :: d in dispatchers && !dispatchers[d].Idle? ==>
          && ShapeOk(dispatchers[d])
          && dispatchers[d].key in actions
          && (actions[dispatchers[d].key].status.DISPATCHING? || actions[dispatchers[d].key].status.CANCELLED?))
    && (forall d, f ::
          (d in dispatchers && f in dispatchers && !dispatchers[d].Idle? && !dispatchers[f].Idle?
           && dispatchers[d].key == dispatchers[f].key) ==> d == f)
  }

  /** Message `m` stands for the cadence action `key`: as a stored message, on its way, or mailed. */
  ghost predicate Carries(
      messages: map<nat, Message>, emails: map<nat, Email>, dispatchers: map<nat, Phase>, m: nat, key: ActionKey)
  {
    || (m in messages && messages[m].origin == Some(key))
    || (m in emails && emails[m].origin == key)
    || (exists d :: d in dispatchers && dispatchers[d].Sending? && dispatchers[d].message == m
          && dispatchers[d].email.origin == key)
  }

  /** Messages and completed cadence actions correspond one to one, also after messages are erased. */
  ghost predicate LedgerOk(
      actions: map<ActionKey, Action>, messages: map<nat, Message>, emails: map<nat, Email>,
      dispatchers: map<nat, Phase>)
  {
    && (forall m, key :: Carries(messages, emails, dispatchers, m, key) ==>
          key.CadenceKey? && key in actions && actions[key].status.COMPLETED? && SendKey(m) in actions)
    && (forall m, n, key ::
          (Carries(messages, emails, dispatchers, m, key) && Carries(messages, emails, dispatchers, n, key)) ==> m == n)
    && (forall m, key, other ::
          (Carries(messages, emails, dispatchers, m, key) && Carries(messages, emails, dispatchers, m, other)) ==>
            key == other)
  }

  /** An outbound message belongs to its cadence action's registration and purpose, and has gone out
      exactly when its send action is completed. */
  ghost predicate MessageOk(
      registrations: map<nat, Registration>, actions: map<ActionKey, Action>, m: nat, x: Message)
  {
    match x.origin
    case None => SendKey(m) !in actions && WentOut(x.status)
    case Some(key) =>
      && key.CadenceKey?
      && key.registration == x.registration && x.registration in registrations
      && x.event == registrations[x.registration].event
      && x.lead == registrations[x.registration].lead
      && x.purpose == StepPurpose(key.step)
      && SendKey(m) in actions
      && (x.providerId.Some? <==> WentOut(x.status))
      && (actions[SendKey(m)].status.COMPLETED? <==> WentOut(x.status))
  }

  ghost predicate MessagesOk(
      registrations: map<nat, Registration>, actions: map<ActionKey, Action>, messages: map<nat, Message>)
  {
    forall m :: m in messages ==> MessageOk(registrations, actions, m, messages[m])
  }

  ghost predicate EmailOk(registrations: map<nat, Registration>, x: Email) {
    && x.origin.CadenceKey?
    && x.origin.registration == x.registration && x.registration in registrations
    && x.event == registrations[x.registration].event
    && x.lead == registrations[x.registration].lead
    && x.purpose == StepPurpose(x.origin.step)
  }

  /** What is mailed or about to be is about the registration and purpose of its cadence action. */
  ghost predicate EmailsOk(
      registrations: map<nat, Registration>, emails: map<nat, Email>, dispatchers: map<nat, Phase>)
  {
    && (forall m :: m in emails ==> EmailOk(registrations, emails[m]))
    && (forall d :: d in dispatchers && dispatchers[d].Sending? ==> EmailOk(registrations, dispatchers[d].email))
  }

  /** What is recorded as having gone out, or is about to be, was accepted by the provider. */
  ghost predicate MailedOk(messages: map<nat, Message>, emails: map<nat, Email>, dispatchers: map<nat, Phase>) {
    && (forall m :: m in messages && messages[m].origin.Some? && WentOut(messages[m].status) ==> m in emails)
    && (forall d :: d in dispatchers && dispatchers[d].Accepted? ==> dispatchers[d].message in emails)
  }

  ghost predicate CadenceOk(registrations: map<nat, Registration>, c: Cadence) {
    && ActionsOk(registrations, c.actions)
    && HoldersOk(c.actions, c.dispatchers)
    && LedgerOk(c.actions, c.messages, c.emails, c.dispatchers)
    && MessagesOk(registrations, c.actions, c.messages)
    && EmailsOk(registrations, c.emails, c.dispatchers)
    && MailedOk(c.messages, c.emails, c.dispatchers)
  }

  // ---- Operations of the API ----

  /** Actions may be cancelled and cadence steps added; completed and failed actions stay as they are. */
  ghost predicate Quiet(actions: map<ActionKey, Action>, actions': map<ActionKey, Action>) {
    && (forall k :: k in actions ==>
          && k in actions'
          && actions'[k].registration == actions[k].registration
          && (actions'[k].status == actions[k].status
              || ((actions[k].status.PENDING? || actions[k].status.DISPATCHING?) && actions'[k].status.CANCELLED?)))
    && (forall k :: k in actions' && k !in actions ==> k.CadenceKey? && actions'[k] == Action(k.registration, PENDING))
  }

  /** Which statuses a step is for: follow-ups are written for the final status they follow. */
  predicate Fits(step: CadenceStep, st: RegistrationStatus) {
    match step
    case WELCOME | D14 | D7 | D3 | D1 => true
    case ATTENDEE_H2 | ATTENDEE_D2 | ATTENDEE_D7 => st.ATTENDED?
    case NO_SHOW_D1 | NO_SHOW_D3 | NO_SHOW_D7 => st.NO_SHOW?
  }

  lemma {:induction false} ScheduleAdds(actions: map<ActionKey, Action>, r: nat, steps: seq<CadenceStep>)
    ensures Quiet(actions, Schedule(actions, r, steps))
    ensures forall k :: k in Schedule(actions, r, steps) <==>
      k in actions || (k.CadenceKey? && k.registration == r && k.step in steps)
    ensures forall k :: k in actions ==> Schedule(actions, r, steps)[k] == actions[k]
  {
    if steps != [] {
      ScheduleAdds(actions, r, steps[..|steps| - 1]);
      assert steps == steps[..|steps| - 1] + [steps[|steps| - 1]];
    }
  }

  /** How long before the event each reminder is due. */
  function LeadTime(step: CadenceStep): int {
    match step
    case D14 => 14 * DAY_MS
    case D7 => 7 * DAY_MS
    case D3 => 3 * DAY_MS
    case _ => DAY_MS
  }

  /** The welcome is always scheduled, and of the reminders exactly those still ahead. */
  lemma RemindersAhead(startsAt: int, now: int, step: CadenceStep)
    ensures step in PreEventSteps(startsAt, now) <==>
      step.WELCOME? || (StepPurpose(step).EVENT_COMMUNICATION? && startsAt - LeadTime(step) > now)
  {
    match step { case _ => }
  }

  /** A redelivered enrichment command, at the same time or later, schedules nothing new. */
  lemma RedeliveryAddsNothing(actions: map<ActionKey, Action>, r: nat, startsAt: int, now: int, later: int)
    requires now <= later
    ensures var once := Schedule(actions, r, PreEventSteps(startsAt, now));
      Schedule(once, r, PreEventSteps(startsAt, later)) == once
  {
    var once := Schedule(actions, r, PreEventSteps(startsAt, now));
    ScheduleAdds(actions, r, PreEventSteps(startsAt, now));
    ScheduleAdds(once, r, PreEventSteps(startsAt, later));
    forall step | step in PreEventSteps(startsAt, later) ensures step in PreEventSteps(startsAt, now) {
      RemindersAhead(startsAt, later, step);
      RemindersAhead(startsAt, now, step);
    }
  }

  lemma PostEventIsQuiet(actions: map<ActionKey, Action>, r: nat, st: RegistrationStatus)
    ensures Quiet(actions, Schedule(CancelWhere(actions, r, false), r, PostEventSteps(st)))
    ensures forall k :: k in Schedule(CancelWhere(actions, r, false), r, PostEventSteps(st)) ==>
      k in actions || (k.CadenceKey? && k.registration == r && Fits(k.step, st))
  {
    ScheduleAdds(CancelWhere(actions, r, false), r, PostEventSteps(st));
  }

  lemma PreEventIsQuiet(actions: map<ActionKey, Action>, r: nat, startsAt: int, now: int)
    ensures Quiet(actions, Schedule(actions, r, PreEventSteps(startsAt, now)))
    ensures forall k :: k in Schedule(actions, r, PreEventSteps(startsAt, now)) ==>
      k in actions || (k.CadenceKey? && k.registration == r && StepPurpose(k.step).EVENT_COMMUNICATION?)
  {
    ScheduleAdds(actions, r, PreEventSteps(startsAt, now));
    assert forall x :: x in PreEventSteps(startsAt, now) ==> StepPurpose(x).EVENT_COMMUNICATION?;
  }

  lemma QuietKeepsActions(crm: Crm, crm': Crm, actions: map<ActionKey, Action>, actions': map<ActionKey, Action>)
    requires ActionsOk(crm.registrations, actions) && KeepsRegistrations(crm, crm') && Quiet(actions, actions')
    requires forall k :: k in actions' && k !in actions ==> k.registration in crm'.registrations
    ensures ActionsOk(crm'.registrations, actions')
  {
  }

  lemma QuietKeepsLedger(
      actions: map<ActionKey, Action>, actions': map<ActionKey, Action>,
      messages: map<nat, Message>, messages': map<nat, Message>, emails: map<nat, Email>, dispatchers: map<nat, Phase>)
    requires HoldersOk(actions, dispatchers)
    requires LedgerOk(actions, messages, emails, dispatchers) && Quiet(actions, actions')
    requires forall m :: m in messages' && messages'[m].origin.Some? ==>
      m in messages && messages'[m].origin == messages[m].origin
    ensures HoldersOk(actions', dispatchers) && LedgerOk(actions', messages', emails, dispatchers)
  {
    assert forall m, key :: Carries(messages', emails, dispatchers, m, key) ==>
      Carries(messages, emails, dispatchers, m, key);
  }

  lemma QuietKeepsMessages(
      crm: Crm, crm': Crm, actions: map<ActionKey, Action>, actions': map<ActionKey, Action>,
      messages: map<nat, Message>)
    requires MessagesOk(crm.registrations, actions, messages)
    requires KeepsRegistrations(crm, crm') && Quiet(actions, actions')
    ensures MessagesOk(crm'.registrations, actions', messages)
  {
    forall m | m in messages ensures MessageOk(crm'.registrations, actions', m, messages[m]) {
      assert MessageOk(crm.registrations, actions, m, messages[m]);
    }
  }

  lemma TableKeepsEmails(crm: Crm, crm': Crm, emails: map<nat, Email>, dispatchers: map<nat, Phase>)
    requires EmailsOk(crm.registrations, emails, dispatchers) && KeepsRegistrations(crm, crm')
    ensures EmailsOk(crm'.registrations, emails, dispatchers)
  {
    assert forall x :: EmailOk(crm.registrations, x) ==> EmailOk(crm'.registrations, x);
  }

  /** An operation that changes actions quietly and leaves the rest of the cadence keeps everything. */
  lemma QuietOperation(s: State, crm': Crm, c': Cadence)
    requires CadenceOk(s.crm.registrations, s.cadence) && KeepsRegistrations(s.crm, crm')
    requires Quiet(s.cadence.actions, c'.actions) && c'.messages == s.cadence.messages
    requires c'.emails == s.cadence.emails && c'.dispatchers == s.cadence.dispatchers
    requires forall k :: k in c'.actions && k !in s.cadence.actions ==> k.registration in crm'.registrations
    ensures CadenceOk(crm'.registrations, c')
  {
    QuietKeepsActions(s.crm, crm', s.cadence.actions, c'.actions);
    QuietKeepsLedger(s.cadence.actions, c'.actions, s.cadence.messages, c'.messages, c'.emails, c'.dispatchers);
    QuietKeepsMessages(s.crm, crm', s.cadence.actions, c'.actions, c'.messages);
    TableKeepsEmails(s.crm, crm', c'.emails, c'.dispatchers);
  }

  /** An operation on messages: each is as before, or gone, or inbound under an id without send action, or
      has had its delivery status updated by the provider. */
  lemma MessageOperation(s: State, c': Cadence)
    requires CadenceOk(s.crm.registrations, s.cadence) && c'.actions == s.cadence.actions
    requires c'.emails == s.cadence.emails && c'.dispatchers == s.cadence.dispatchers
    requires forall m :: m in c'.messages ==>
      || (m in s.cadence.messages && c'.messages[m] == s.cadence.messages[m])
      || (c'.messages[m].origin.None? && SendKey(m) !in s.cadence.actions && WentOut(c'.messages[m].status))
      || (m in s.cadence.messages && s.cadence.messages[m].providerId.Some? && WentOut(c'.messages[m].status)
          && c'.messages[m] == s.cadence.messages[m].(status := c'.messages[m].status))
    ensures CadenceOk(s.crm.registrations, c')
  {
    var c := s.cadence;
    QuietKeepsLedger(c.actions, c'.actions, c.messages, c'.messages, c.emails, c.dispatchers);
    forall m | m in c'.messages ensures MessageOk(s.crm.registrations, c'.actions, m, c'.messages[m]) {
      if m in c.messages { assert MessageOk(s.crm.registrations, c.actions, m, c.messages[m]); }
    }
  }

  lemma StopKeepsCadence(s: State, crm': Crm, r: nat)
    requires CadenceOk(s.crm.registrations, s.cadence) && KeepsRegistrations(s.crm, crm')
    ensures CadenceOk(crm'.registrations, StopCadence(s.cadence, r))
  {
    QuietOperation(s, crm', StopCadence(s.cadence, r));
  }

  lemma UpdateKeepsCadence(s: State, r: nat, st: RegistrationStatus, read: RegistrationStatus)
    requires CadenceOk(s.crm.registrations, s.cadence)
    ensures var s' := UpdateStatus(s, r, st, read); CadenceOk(s'.crm.registrations, s'.cadence)
  {
    var s' := UpdateStatus(s, r, st, read);
    UpdateIsOnward(s, r, st, read);
    if s' != s {
      if st.DECLINED? {
        StopKeepsCadence(s, s'.crm, r);
      } else if st.ATTENDED? || st.NO_SHOW? {
        PostEventIsQuiet(s.cadence.actions, r, st);
        QuietOperation(s, s'.crm, s'.cadence);
      } else {
        QuietOperation(s, s'.crm, s.cadence);
      }
    }
  }

  /** Storing an inbound message under an unused id. */
  lemma StoreInbound(s: State, m: nat, message: Message)
    requires CadenceOk(s.crm.registrations, s.cadence) && message.origin.None? && WentOut(message.status)
    requires m !in s.cadence.messages && SendKey(m) !in s.cadence.actions
    ensures CadenceOk(s.crm.registrations, s.cadence.(messages := s.cadence.messages[m := message]))
  {
    MessageOperation(s, s.cadence.(messages := s.cadence.messages[m := message]));
  }

  lemma InboundKeepsCadence(
      s: State, r: nat, i: Intent, m: nat, providerId: Option<string>, read: RegistrationStatus)
    requires CadenceOk(s.crm.registrations, s.cadence)
    ensures var s' := RecordInbound(s, r, i, m, providerId, read); CadenceOk(s'.crm.registrations, s'.cadence)
  {
    var s' := RecordInbound(s, r, i, m, providerId, read);
    InboundIsOnward(s, r, i, m, providerId, read);
    if s' != s {
      var reg := s.crm.registrations[r];
      var message := Message(reg.event, reg.lead, r, COMMERCIAL_FOLLOW_UP, DELIVERED, providerId, None);
      StoreInbound(s, m, message);
      var stored := s.(cadence := s.cadence.(messages := s.cadence.messages[m := message]));
      if i.optOut || i.handoff || i.declines {
        StopKeepsCadence(stored, s'.crm, r);
      } else {
        QuietOperation(stored, s'.crm, stored.cadence);
      }
    }
  }

  lemma TokenKeepsCadence(s: State, t: nat, now: int)
    requires CadenceOk(s.crm.registrations, s.cadence)
    ensures CadenceOk(ConsumePublicAction(s, t, now).crm.registrations, ConsumePublicAction(s, t, now).cadence)
  {
    var s' := ConsumePublicAction(s, t, now);
    TokenIsOnward(s, t, now);
    if s' != s {
      var token := s.cadence.tokens[t];
      var c := s.cadence.(tokens := s.cadence.tokens[t := token.(consumed := true)]);
      if token.kind.CONFIRM? {
        QuietOperation(s, s'.crm, c);
      } else {
        StopKeepsCadence(s.(cadence := c), s'.crm, token.registration);
      }
    }
  }

  lemma WebhookKeepsCadence(s: State, m: nat, receipt: string, kind: WebhookKind, read: MessageStatus)
    requires CadenceOk(s.crm.registrations, s.cadence)
    ensures CadenceOk(s.crm.registrations, ProcessEmailWebhook(s, m, receipt, kind, read).cadence)
  {
    if m in s.cadence.messages { assert MessageOk(s.crm.registrations, s.cadence.actions, m, s.cadence.messages[m]); }
    MessageOperation(s, ProcessEmailWebhook(s, m, receipt, kind, read).cadence);
  }

  lemma WithdrawKeepsCadence(s: State, l: nat, p: Purpose, seen: set<nat>)
    requires CadenceOk(s.crm.registrations, s.cadence)
    ensures CadenceOk(s.crm.registrations, Withdraw(s, l, p, seen).cadence)
  {
    QuietOperation(s, s.crm, Withdraw(s, l, p, seen).cadence);
  }

  lemma EraseKeepsCadence(s: State, l: nat)
    requires CadenceOk(s.crm.registrations, s.cadence)
    ensures CadenceOk(s.crm.registrations, DeleteLeadData(s, l).cadence)
  {
    MessageOperation(s, DeleteLeadData(s, l).cadence);
  }

  lemma EnrichKeepsCadence(s: State, r: nat, disqualified: bool, now: int)
    requires CadenceOk(s.crm.registrations, s.cadence)
    ensures CadenceOk(s.crm.registrations, CompleteEnrichment(s, r, disqualified, now).cadence)
  {
    var c' := CompleteEnrichment(s, r, disqualified, now).cadence;
    if r in s.crm.registrations && s.crm.registrations[r].event in s.crm.events {
      PreEventIsQuiet(s.cadence.actions, r, s.crm.events[s.crm.registrations[r].event].startsAt, now);
    }
    QuietOperation(s, s.crm, c');
  }

  lemma RegisterKeepsCadence(s: State, op: Operation)
    requires CadenceOk(s.crm.registrations, s.cadence) && op.RegisterForEvent?
    ensures CadenceOk(ApplyApi(s, op).crm.registrations, s.cadence)
  {
    RegisterIsOnward(s.crm, op.e, op.email, op.commercial, op.l, op.r);
    QuietOperation(s, ApplyApi(s, op).crm, s.cadence);
  }

  lemma BookKeepsCadence(s: State, r: nat, slot: Slot, seen: multiset<Slot>)
    requires CadenceOk(s.crm.registrations, s.cadence)
    ensures CadenceOk(s.crm.registrations, BookMeeting(s, r, slot, seen).cadence)
  {
    if r in s.crm.registrations { StopKeepsCadence(s, s.crm, r); }
  }

  lemma AdmissionKeepsCadence(s: State, op: Operation)
    requires CadenceOk(s.crm.registrations, s.cadence) && Admits(op)
    ensures CadenceOk(ApplyApi(s, op).crm.registrations, ApplyApi(s, op).cadence)
  {
    match op {
      case CreateEvent(_, _) =>
      case MoveEvent(_, _, _) =>
      case RegisterForEvent(_, _, _, _, _) => RegisterKeepsCadence(s, op);
      case OperatorStatus(r, st, read) => UpdateKeepsCadence(s, r, st, read);
      case Inbound(r, i, m, providerId, read) => InboundKeepsCadence(s, r, i, m, providerId, read);
      case PublicAction(t, now) => TokenKeepsCadence(s, t, now);
    }
  }

  lemma OperationKeepsCadence(s: State, op: Operation)
    requires CadenceOk(s.crm.registrations, s.cadence)
    ensures CadenceOk(ApplyApi(s, op).crm.registrations, ApplyApi(s, op).cadence)
  {
    if Admits(op) {
      AdmissionKeepsCadence(s, op);
    } else {
      match op {
        case Book(r, slot, seen) => BookKeepsCadence(s, r, slot, seen);
        case Webhook(m, receipt, kind, read) => WebhookKeepsCadence(s, m, receipt, kind, read);
        case WithdrawFor(l, p, seen) => WithdrawKeepsCadence(s, l, p, seen);
        case Erase(l) => EraseKeepsCadence(s, l);
        case Enrich(r, disqualified, now) => EnrichKeepsCadence(s, r, disqualified, now);
        case IssueToken(_, _) =>
      }
    }
  }

  // ---- Moves of the dispatchers ----

  /** Letting go of a held action with a status other than COMPLETED. */
  lemma SettleKeepsCadence(registrations: map<nat, Registration>, c: Cadence, d: nat, st: ActionStatus)
    requires CadenceOk(registrations, c) && !PhaseOf(c, d).Idle? && !st.COMPLETED?
    ensures PhaseOf(c, d).key in c.actions
    ensures CadenceOk(registrations, Settle(c, d, PhaseOf(c, d).key, st))
  {
    var key := PhaseOf(c, d).key;
    var c' := Settle(c, d, key, st);
    assert forall m, k :: Carries(c'.messages, c'.emails, c'.dispatchers, m, k) ==>
      Carries(c.messages, c.emails, c.dispatchers, m, k);
    assert !c.actions[key].status.COMPLETED?;
    forall m | m in c'.messages ensures MessageOk(registrations, c'.actions, m, c'.messages[m]) {
      assert MessageOk(registrations, c.actions, m, c.messages[m]);
    }
  }

  /** Going from one phase to another with the same action, without taking anything new on. */
  lemma BecomeKeepsCadence(registrations: map<nat, Registration>, c: Cadence, d: nat, p: Phase)
    requires CadenceOk(registrations, c)
    requires p.Idle? || (!PhaseOf(c, d).Idle? && p.key == PhaseOf(c, d).key && ShapeOk(p))
    requires p.Sending? ==>
      && EmailOk(registrations, p.email)
      && p.message in c.messages && c.messages[p.message].origin == Some(p.email.origin)
    requires !p.Accepted?
    ensures CadenceOk(registrations, Become(c, d, p))
  {
    var c' := Become(c, d, p);
    assert forall m, k :: Carries(c'.messages, c'.emails, c'.dispatchers, m, k) ==>
      Carries(c.messages, c.emails, c.dispatchers, m, k);
  }

  lemma ClaimKeepsCadence(registrations: map<nat, Registration>, c: Cadence, d: nat, key: ActionKey)
    requires CadenceOk(registrations, c)
    ensures CadenceOk(registrations, Claim(c, d, key))
  {
    var c' := Claim(c, d, key);
    if c' != c {
      assert forall m, k :: Carries(c'.messages, c'.emails, c'.dispatchers, m, k) ==>
        Carries(c.messages, c.emails, c.dispatchers, m, k);
      forall m | m in c'.messages ensures MessageOk(registrations, c'.actions, m, c'.messages[m]) {
        assert MessageOk(registrations, c.actions, m, c.messages[m]);
      }
    }
  }

  lemma DecideKeepsCadence(s: State, d: nat, now: int)
    requires CadenceOk(s.crm.registrations, s.cadence)
    ensures CadenceOk(s.crm.registrations, JudgeDecision(s, d, now).cadence)
  {
    match PhaseOf(s.cadence, d) {
      case Claimed(CadenceKey(r, step)) =>
        SettleKeepsCadence(s.crm.registrations, s.cadence, d, PENDING);
        SettleKeepsCadence(s.crm.registrations, s.cadence, d, CANCELLED);
        BecomeKeepsCadence(s.crm.registrations, s.cadence, d, Drafting(CadenceKey(r, step)));
      case _ =>
    }
  }

  /** An approved draft opens exactly one new correspondence: its action was not completed, its id not used. */
  lemma DraftKeepsLedger(c: Cadence, c': Cadence, d: nat, m: nat, key: ActionKey, x: Message)
    requires HoldersOk(c.actions, c.dispatchers) && LedgerOk(c.actions, c.messages, c.emails, c.dispatchers)
    requires PhaseOf(c, d) == Drafting(key) && key in c.actions && m !in c.messages && SendKey(m) !in c.actions
    requires x.origin == Some(key) && key.CadenceKey?
    requires c'.messages == c.messages[m := x] && c'.emails == c.emails && c'.dispatchers == c.dispatchers[d := Idle]
    requires var completed := c.actions[key := c.actions[key].(status := COMPLETED)];
      c'.actions == completed[SendKey(m) := Action(key.registration, PENDING)]
    ensures HoldersOk(c'.actions, c'.dispatchers) && LedgerOk(c'.actions, c'.messages, c'.emails, c'.dispatchers)
  {
    assert !c.actions[key].status.COMPLETED?;
    forall n, k | Carries(c'.messages, c'.emails, c'.dispatchers, n, k)
      ensures Carries(c.messages, c.emails, c.dispatchers, n, k) || (n == m && k == key)
    {
    }
    assert forall k :: !Carries(c.messages, c.emails, c.dispatchers, m, k);
    assert forall n :: !Carries(c.messages, c.emails, c.dispatchers, n, key);
  }

  lemma DraftKeepsCadence(s: State, d: nat, m: nat)
    requires CadenceOk(s.crm.registrations, s.cadence)
    ensures CadenceOk(s.crm.registrations, CommitDraft(s, d, m).cadence)
  {
    var c, c' := s.cadence, CommitDraft(s, d, m).cadence;
    match PhaseOf(c, d) {
      case Drafting(CadenceKey(r, step)) =>
        if CommitDraft(s, d, m) != s {
          var key := CadenceKey(r, step);
          DraftKeepsLedger(c, c', d, m, key, c'.messages[m]);
          forall n | n in c'.messages ensures MessageOk(s.crm.registrations, c'.actions, n, c'.messages[n]) {
            if n != m { assert MessageOk(s.crm.registrations, c.actions, n, c.messages[n]); }
          }
        }
      case _ =>
    }
  }

  lemma SuppressKeepsCadence(registrations: map<nat, Registration>, c: Cadence, d: nat, m: nat)
    requires CadenceOk(registrations, c) && m in c.messages && c.messages[m].origin.Some?
    requires PhaseOf(c, d) == Claimed(SendKey(m))
    ensures SendKey(m) in c.actions
    ensures CadenceOk(registrations,
      Settle(c.(messages := c.messages[m := c.messages[m].(status := SUPPRESSED)]), d, SendKey(m), CANCELLED))
  {
    assert MessageOk(registrations, c.actions, m, c.messages[m]);
    var c1 := c.(messages := c.messages[m := c.messages[m].(status := SUPPRESSED)]);
    QuietKeepsLedger(c.actions, c1.actions, c.messages, c1.messages, c.emails, c.dispatchers);
    forall n | n in c1.messages ensures MessageOk(registrations, c1.actions, n, c1.messages[n]) {
      if n != m { assert MessageOk(registrations, c.actions, n, c.messages[n]); }
    }
    SettleKeepsCadence(registrations, c1, d, CANCELLED);
  }

  /** A message whose send is claimed has not gone out, as long as no action is claimed while its dispatcher is
      still at work on it; the branch for sent messages is for leases that run out under a live dispatcher. */
  lemma ClaimedIsNotOut(registrations: map<nat, Registration>, c: Cadence, d: nat, m: nat)
    requires CadenceOk(registrations, c) && m in c.messages && c.messages[m].origin.Some?
    requires !PhaseOf(c, d).Idle? && PhaseOf(c, d).key == SendKey(m)
    ensures !WentOut(c.messages[m].status) && c.messages[m].providerId.None?
  {
    assert MessageOk(registrations, c.actions, m, c.messages[m]);
  }

  lemma CheckKeepsCadence(s: State, d: nat, now: int)
    requires CadenceOk(s.crm.registrations, s.cadence)
    ensures CadenceOk(s.crm.registrations, JudgeSend(s, d, now).cadence)
  {
    match PhaseOf(s.cadence, d) {
      case Claimed(SendKey(m)) =>
        if m in s.cadence.messages && s.cadence.messages[m].origin.Some? {
          var x := s.cadence.messages[m];
          assert MessageOk(s.crm.registrations, s.cadence.actions, m, x);
          ClaimedIsNotOut(s.crm.registrations, s.cadence, d, m);
          SettleKeepsCadence(s.crm.registrations, s.cadence, d, PENDING);
          SuppressKeepsCadence(s.crm.registrations, s.cadence, d, m);
          BecomeKeepsCadence(s.crm.registrations, s.cadence, d,
            Sending(SendKey(m), m, Email(x.event, x.lead, x.registration, x.purpose, x.origin.value)));
        }
      case _ =>
    }
  }

  lemma HandOverKeepsCadence(registrations: map<nat, Registration>, c: Cadence, d: nat)
    requires CadenceOk(registrations, c)
    ensures CadenceOk(registrations, HandOver(c, d))
  {
    HandOverCarriesNothingNew(c, d);
  }

  lemma HandOverCarriesNothingNew(c: Cadence, d: nat)
    ensures var c' := HandOver(c, d);
      forall n, k :: Carries(c'.messages, c'.emails, c'.dispatchers, n, k) ==>
        Carries(c.messages, c.emails, c.dispatchers, n, k)
  {
  }

  lemma CommitCarriesNothingNew(c: Cadence, d: nat, id: string, delivered: bool)
    ensures var c' := CommitSend(c, d, id, delivered);
      forall n, k :: Carries(c'.messages, c'.emails, c'.dispatchers, n, k) ==>
        Carries(c.messages, c.emails, c.dispatchers, n, k)
  {
  }

  lemma CommitKeepsMessages(registrations: map<nat, Registration>, c: Cadence, d: nat, id: string, delivered: bool)
    requires MessagesOk(registrations, c.actions, c.messages) && HoldersOk(c.actions, c.dispatchers)
    ensures var c' := CommitSend(c, d, id, delivered); MessagesOk(registrations, c'.actions, c'.messages)
  {
    var c' := CommitSend(c, d, id, delivered);
    if c' != c {
      var m := PhaseOf(c, d).message;
      assert PhaseOf(c, d).key == SendKey(m);
      forall n | n in c'.messages ensures MessageOk(registrations, c'.actions, n, c'.messages[n]) {
        assert MessageOk(registrations, c.actions, n, c.messages[n]);
      }
    }
  }

  lemma CommitKeepsCadence(registrations: map<nat, Registration>, c: Cadence, d: nat, id: string, delivered: bool)
    requires CadenceOk(registrations, c)
    ensures CadenceOk(registrations, CommitSend(c, d, id, delivered))
  {
    var c' := CommitSend(c, d, id, delivered);
    match PhaseOf(c, d) {
      case Accepted(key, m) =>
        if c' != c {
          assert MessageOk(registrations, c.actions, m, c.messages[m]);
          CommitCarriesNothingNew(c, d, id, delivered);
          CommitKeepsMessages(registrations, c, d, id, delivered);
        }
      case _ =>
    }
  }

  lemma MoveKeepsCadence(s: State, d: nat, move: Move)
    requires CadenceOk(s.crm.registrations, s.cadence)
    ensures CadenceOk(s.crm.registrations, ApplyMove(s, d, move).cadence)
  {
    var regs := s.crm.registrations;
    match move {
      case ClaimAction(key) => ClaimKeepsCadence(regs, s.cadence, d, key);
      case Decide(now) => DecideKeepsCadence(s, d, now);
      case Draft(m) => DraftKeepsCadence(s, d, m);
      case CheckSend(now) => CheckKeepsCadence(s, d, now);
      case Send => HandOverKeepsCadence(regs, s.cadence, d);
      case Record(id, delivered) => CommitKeepsCadence(regs, s.cadence, d, id, delivered);
      case Fail(last) =>
        if !PhaseOf(s.cadence, d).Idle? { SettleKeepsCadence(regs, s.cadence, d, if last then FAILED else PENDING); }
      case Crash => BecomeKeepsCadence(regs, s.cadence, d, Idle);
    }
  }

  // ---- Every run ----

  ghost predicate Inv(s: State) { CrmOk(s.crm) && CadenceOk(s.crm.registrations, s.cadence) }

  lemma StepKeepsInv(s: State, step: Step)
    requires Inv(s)
    ensures Inv(Apply(s, step))
  {
    match step {
      case Api(op) =>
        OperationKeepsCrm(s, op);
        OperationKeepsCadence(s, op);
      case Dispatcher(d, move) =>
        MovesLeaveCrm(s, d, move);
        MoveKeepsCadence(s, d, move);
    }
  }

  lemma {:induction false} RunKeepsInv(steps: seq<Step>)
    ensures Inv(Run(INITIAL, steps))
  {
    if steps == [] {
      RunKeepsCrm([]);
    } else {
      RunKeepsInv(steps[..|steps| - 1]);
      StepKeepsInv(Run(INITIAL, steps[..|steps| - 1]), steps[|steps| - 1]);
    }
  }

  // ---- Follow-ups fit, while nobody harms with an old reading ----

  /** Follow-ups exist only for the final status they are written for. */
  ghost predicate FollowUpsFit(registrations: map<nat, Registration>, actions: map<ActionKey, Action>) {
    forall k :: k in actions && k.CadenceKey? && k.registration in registrations ==>
      Fits(k.step, registrations[k.registration].status)
  }

  ghost predicate Fitting(s: State) { FollowUpsFit(s.crm.registrations, s.cadence.actions) }

  /** Every cadence step that is new fits. */
  ghost predicate NewStepsFit(s: State, s': State) {
    forall k :: k in s'.cadence.actions && k.CadenceKey? && k !in s.cadence.actions ==>
      k.registration in s'.crm.registrations && Fits(k.step, s'.crm.registrations[k.registration].status)
  }

  lemma FinalStays(crm: Crm, crm': Crm, r: nat, step: CadenceStep)
    requires FollowsTable(crm, crm') && r in crm.registrations && r in crm'.registrations
    requires Fits(step, crm.registrations[r].status)
    ensures Fits(step, crm'.registrations[r].status)
  {
  }

  lemma TableKeepsFitting(s: State, s': State)
    requires Fitting(s) && ActionsOk(s.crm.registrations, s.cadence.actions)
    requires FollowsTable(s.crm, s'.crm) && NewStepsFit(s, s')
    ensures Fitting(s')
  {
    forall k | k in s'.cadence.actions && k.CadenceKey? && k.registration in s'.crm.registrations
      ensures Fits(k.step, s'.crm.registrations[k.registration].status)
    {
      if k in s.cadence.actions { FinalStays(s.crm, s'.crm, k.registration, k.step); }
    }
  }

  lemma UpdateFits(s: State, r: nat, st: RegistrationStatus, read: RegistrationStatus)
    ensures NewStepsFit(s, UpdateStatus(s, r, st, read))
  {
    if st.ATTENDED? || st.NO_SHOW? { PostEventIsQuiet(s.cadence.actions, r, st); }
  }

  lemma EnrichFits(s: State, r: nat, disqualified: bool, now: int)
    ensures NewStepsFit(s, CompleteEnrichment(s, r, disqualified, now))
  {
    if r in s.crm.registrations && s.crm.registrations[r].event in s.crm.events {
      PreEventIsQuiet(s.cadence.actions, r, s.crm.events[s.crm.registrations[r].event].startsAt, now);
    }
  }

  /** The other operations schedule nothing. */
  lemma OthersScheduleNothing(s: State, op: Operation)
    requires !op.OperatorStatus? && !op.Enrich?
    ensures ApplyApi(s, op).cadence.actions.Keys == s.cadence.actions.Keys
  {
    match op {
      case Inbound(r, i, m, id, read) =>
        assert RecordInbound(s, r, i, m, id, read).cadence.actions.Keys == s.cadence.actions.Keys;
      case PublicAction(t, now) =>
        assert ConsumePublicAction(s, t, now).cadence.actions.Keys == s.cadence.actions.Keys;
      case _ =>
    }
  }

  lemma MovesScheduleNoSteps(s: State, d: nat, move: Move)
    ensures forall k :: k in ApplyMove(s, d, move).cadence.actions && k.CadenceKey? ==> k in s.cadence.actions
  {
    match move {
      case Decide(now) =>
        assert JudgeDecision(s, d, now).cadence.actions.Keys == s.cadence.actions.Keys;
      case CheckSend(now) =>
        assert JudgeSend(s, d, now).cadence.actions.Keys == s.cadence.actions.Keys;
      case _ =>
    }
  }

  lemma StepKeepsFitting(s: State, step: Step)
    requires Inv(s) && Fitting(s) && Harmless(s, step)
    ensures Fitting(Apply(s, step))
  {
    StepFollowsExactly(s, step);
    match step {
      case Api(op) =>
        match op {
          case OperatorStatus(r, st, read) => UpdateFits(s, r, st, read);
          case Enrich(r, disqualified, now) => EnrichFits(s, r, disqualified, now);
          case _ => OthersScheduleNothing(s, op);
        }
      case Dispatcher(d, move) => MovesScheduleNoSteps(s, d, move);
    }
    TableKeepsFitting(s, Apply(s, step));
  }

  lemma {:induction false} RunKeepsFitting(steps: seq<Step>)
    requires AllHarmless(INITIAL, steps)
    ensures Fitting(Run(INITIAL, steps))
  {
    if steps != [] {
      RunKeepsFitting(steps[..|steps| - 1]);
      RunKeepsInv(steps[..|steps| - 1]);
      StepKeepsFitting(Run(INITIAL, steps[..|steps| - 1]), steps[|steps| - 1]);
    }
  }

  // ---- Kinds of follow-ups ----

  /** Some follow-up for this final status is scheduled, or has been. */
  predicate HasKind(actions: map<ActionKey, Action>, r: nat, st: RegistrationStatus) {
    exists step :: step in PostEventSteps(st) && CadenceKey(r, step) in actions
  }

  predicate OneKind(actions: map<ActionKey, Action>, r: nat) {
    !(HasKind(actions, r, ATTENDED) && HasKind(actions, r, NO_SHOW))
  }

  /** An operator's change, if the status read allows it. */
  predicate Records(s: State, step: Step, r: nat, st: RegistrationStatus) {
    step.Api? && step.op.OperatorStatus? && step.op.r == r && step.op.st == st
    && r in s.crm.registrations && CanMove(step.op.read, st)
  }

  /** The step schedules follow-ups for a registration that has some of the other kind. */
  predicate MixesKinds(s: State, step: Step, r: nat) {
    || (Records(s, step, r, ATTENDED) && HasKind(s.cadence.actions, r, NO_SHOW))
    || (Records(s, step, r, NO_SHOW) && HasKind(s.cadence.actions, r, ATTENDED))
  }

  predicate SchedulesFor(s: State, step: Step, key: ActionKey) {
    key.CadenceKey? && exists st :: Records(s, step, key.registration, st) && key.step in PostEventSteps(st)
  }

  lemma UpdateKeys(s: State, r: nat, st: RegistrationStatus, read: RegistrationStatus, key: ActionKey)
    requires key.CadenceKey?
    ensures key in UpdateStatus(s, r, st, read).cadence.actions <==>
      key in s.cadence.actions || SchedulesFor(s, Api(OperatorStatus(r, st, read)), key)
  {
    var step := Api(OperatorStatus(r, st, read));
    assert Records(s, step, r, st) <==> r in s.crm.registrations && CanMove(read, st);
    ScheduleAdds(CancelWhere(s.cadence.actions, r, false), r, PostEventSteps(st));
  }

  lemma EnrichKeys(s: State, r: nat, disqualified: bool, now: int, key: ActionKey)
    requires key.CadenceKey? && StepPurpose(key.step).COMMERCIAL_FOLLOW_UP?
    ensures key in CompleteEnrichment(s, r, disqualified, now).cadence.actions <==> key in s.cadence.actions
  {
    if r in s.crm.registrations && s.crm.registrations[r].event in s.crm.events {
      var startsAt := s.crm.events[s.crm.registrations[r].event].startsAt;
      ScheduleAdds(s.cadence.actions, r, PreEventSteps(startsAt, now));
      RemindersAhead(startsAt, now, key.step);
    }
  }

  lemma MovesKeepKeys(s: State, d: nat, move: Move)
    ensures s.cadence.actions.Keys <= ApplyMove(s, d, move).cadence.actions.Keys
  {
    match move {
      case Decide(now) => assert JudgeDecision(s, d, now).cadence.actions.Keys == s.cadence.actions.Keys;
      case CheckSend(now) => assert JudgeSend(s, d, now).cadence.actions.Keys == s.cadence.actions.Keys;
      case _ =>
    }
  }

  /** Follow-ups come only with an operator's change to their status, and stay on record. */
  lemma FollowUpKeys(s: State, step: Step, key: ActionKey)
    requires key.CadenceKey? && StepPurpose(key.step).COMMERCIAL_FOLLOW_UP?
    ensures key in Apply(s, step).cadence.actions <==> key in s.cadence.actions || SchedulesFor(s, step, key)
  {
    match step {
      case Api(op) =>
        match op {
          case OperatorStatus(r, st, read) => UpdateKeys(s, r, st, read, key);
          case Enrich(r, disqualified, now) => EnrichKeys(s, r, disqualified, now, key);
          case _ => OthersScheduleNothing(s, op);
        }
      case Dispatcher(d, move) =>
        MovesScheduleNoSteps(s, d, move);
        MovesKeepKeys(s, d, move);
    }
  }

  lemma KindsAfter(s: State, step: Step, r: nat, st: RegistrationStatus)
    requires st.ATTENDED? || st.NO_SHOW?
    ensures HasKind(Apply(s, step).cadence.actions, r, st) <==>
      HasKind(s.cadence.actions, r, st) || Records(s, step, r, st)
  {
    forall x | x in PostEventSteps(st)
      ensures CadenceKey(r, x) in Apply(s, step).cadence.actions <==>
        CadenceKey(r, x) in s.cadence.actions || Records(s, step, r, st)
    {
      FollowUpKeys(s, step, CadenceKey(r, x));
      if SchedulesFor(s, step, CadenceKey(r, x)) {
        var other :| Records(s, step, r, other) && x in PostEventSteps(other);
        assert other == st;
      }
    }
    assert PostEventSteps(st)[0] in PostEventSteps(st);
  }

  /** A step keeps a registration's follow-ups of one kind exactly unless it schedules the other kind. */
  lemma KeepsOneKindExactly(s: State, step: Step, r: nat)
    ensures OneKind(Apply(s, step).cadence.actions, r) <==>
      OneKind(s.cadence.actions, r) && !MixesKinds(s, step, r)
  {
    KindsAfter(s, step, r, ATTENDED);
    KindsAfter(s, step, r, NO_SHOW);
  }

  ghost predicate NeverMixes(s: State, steps: seq<Step>, r: nat) {
    steps != [] ==>
      && NeverMixes(s, steps[..|steps| - 1], r)
      && !MixesKinds(Run(s, steps[..|steps| - 1]), steps[|steps| - 1], r)
  }

  /** Along a run a registration has one kind of follow-ups exactly when no operator's change finds the other
      kind scheduled. */
  lemma {:induction false} OneKindExactly(steps: seq<Step>, r: nat)
    ensures OneKind(Run(INITIAL, steps).cadence.actions, r) <==> NeverMixes(INITIAL, steps, r)
  {
    if steps != [] {
      OneKindExactly(steps[..|steps| - 1], r);
      KeepsOneKindExactly(Run(INITIAL, steps[..|steps| - 1]), steps[|steps| - 1], r);
    }
  }

  /** Harmless steps keep one kind, for every registration. */
  lemma HarmlessKeepsOneKind(steps: seq<Step>, r: nat)
    requires AllHarmless(INITIAL, steps)
    ensures OneKind(Run(INITIAL, steps).cadence.actions, r)
  {
    RunKeepsFitting(steps);
    RunKeepsInv(steps);
    FittingIsOneKind(Run(INITIAL, steps).crm.registrations, Run(INITIAL, steps).cadence.actions, r);
  }

  lemma FittingIsOneKind(registrations: map<nat, Registration>, actions: map<ActionKey, Action>, r: nat)
    requires ActionsOk(registrations, actions) && FollowUpsFit(registrations, actions)
    ensures OneKind(actions, r)
  {
    KindIsStatus(registrations, actions, r, ATTENDED);
    KindIsStatus(registrations, actions, r, NO_SHOW);
  }

  lemma KindIsStatus(
      registrations: map<nat, Registration>, actions: map<ActionKey, Action>, r: nat, st: RegistrationStatus)
    requires ActionsOk(registrations, actions) && FollowUpsFit(registrations, actions) && (st.ATTENDED? || st.NO_SHOW?)
    ensures HasKind(actions, r, st) ==> r in registrations && registrations[r].status == st
  {
    if HasKind(actions, r, st) {
      var x :| x in PostEventSteps(st) && CadenceKey(r, x) in actions;
      assert Fits(x, registrations[r].status);
    }
  }

  // ---- Links ----

  ghost predicate LinksOk(s: State) {
    forall t :: t in s.cadence.tokens ==> s.cadence.tokens[t].registration in s.crm.registrations
  }

  /** Links come from links there were, or are issued for a registration there is. */
  ghost predicate LinksFrom(s: State, s': State) {
    forall t :: t in s'.cadence.tokens ==>
      || (t in s.cadence.tokens && s'.cadence.tokens[t].registration == s.cadence.tokens[t].registration)
      || s'.cadence.tokens[t].registration in s.crm.registrations
  }

  lemma TokenLinks(s: State, t: nat, now: int)
    ensures LinksFrom(s, ConsumePublicAction(s, t, now))
  {
  }

  lemma OthersIssueNothing(s: State, op: Operation)
    requires !op.PublicAction? && !op.IssueToken? && !op.Erase?
    ensures ApplyApi(s, op).cadence.tokens == s.cadence.tokens
  {
    match op {
      case OperatorStatus(r, st, read) => UpdateIssuesNothing(s, r, st, read);
      case Inbound(r, i, m, id, read) => ReplyIssuesNothing(s, r, i, m, id, read);
      case _ =>
    }
  }

  lemma UpdateIssuesNothing(s: State, r: nat, st: RegistrationStatus, read: RegistrationStatus)
    ensures UpdateStatus(s, r, st, read).cadence.tokens == s.cadence.tokens
  {
  }

  lemma ReplyIssuesNothing(
      s: State, r: nat, i: Intent, m: nat, providerId: Option<string>, read: RegistrationStatus)
    ensures RecordInbound(s, r, i, m, providerId, read).cadence.tokens == s.cadence.tokens
  {
  }

  lemma MovesIssueNothing(s: State, d: nat, move: Move)
    ensures ApplyMove(s, d, move).cadence.tokens == s.cadence.tokens
  {
    match move { case _ => }
  }

  lemma StepKeepsLinks(s: State, step: Step)
    requires LinksOk(s)
    ensures LinksOk(Apply(s, step))
  {
    StepIsOnward(s, step);
    match step {
      case Api(op) =>
        match op {
          case PublicAction(t, now) => TokenLinks(s, t, now);
          case Erase(l) => assert LinksFrom(s, DeleteLeadData(s, l));
          case IssueToken(t, token) => assert LinksFrom(s, AddToken(s, t, token));
          case _ => OthersIssueNothing(s, op);
        }
      case Dispatcher(d, move) => MovesIssueNothing(s, d, move);
    }
    LinksStayOk(s, Apply(s, step));
  }

  lemma LinksStayOk(s: State, s': State)
    requires LinksOk(s) && LinksFrom(s, s') && KeepsRegistrations(s.crm, s'.crm)
    ensures LinksOk(s')
  {
  }

  /** Links always refer to registrations that exist. */
  lemma {:induction false} RunKeepsLinks(steps: seq<Step>)
    ensures LinksOk(Run(INITIAL, steps))
  {
    if steps != [] {
      RunKeepsLinks(steps[..|steps| - 1]);
      StepKeepsLinks(Run(INITIAL, steps[..|steps| - 1]), steps[|steps| - 1]);
    }
  }
}
