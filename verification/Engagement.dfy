/** The engagement state machine: registrations, consent, suppression, cadence actions, messages and
    webhooks, moved by API operations, the enrichment worker and any number of action dispatchers
    (apps/api/src/modules/engagement, apps/api/src/modules/events, apps/execution-worker/src/engagement,
    apps/execution-worker/src/enrichment). Every operation is a function from one state to the next. */
module Engagement {
  import opened CommunicationPolicy

  datatype Option<+T> = None | Some(value: T)

  // ---- Tables ----

  datatype EventStatus = DRAFT | PUBLISHED | LIVE | COMPLETED_EVENT | CANCELLED_EVENT

  datatype EventRow = EventRow(
    status: EventStatus, capacity: nat, startsAt: int, endsAt: Option<int>, retentionDays: nat, offsetMs: int)

  datatype Lead = Lead(email: string, suppressed: bool)

  datatype Registration = Registration(event: nat, lead: nat, status: RegistrationStatus)

  datatype Consent = Consent(event: nat, lead: nat, purpose: Purpose)

  datatype Suppression = Suppression(lead: nat, purpose: Purpose)

  datatype Slot = Slot(startsAt: int, endsAt: int)

  /** Who is registered for what, and may be written to. `consents` holds the consents that have not been
      withdrawn, `meetings` the registrations with a booked meeting, `slots` the times of all meetings,
      `requests` the enrichment commands in the outbox, and `promotions` counts the operator moves off the
      waiting list, per event. */
  datatype Crm = Crm(
    events: map<nat, EventRow>,
    leads: map<nat, Lead>,
    registrations: map<nat, Registration>,
    consents: set<Consent>,
    suppressions: set<Suppression>,
    meetings: set<nat>,
    slots: multiset<Slot>,
    requests: multiset<nat>,
    promotions: multiset<nat>)

  datatype CadenceStep =
    | WELCOME | D14 | D7 | D3 | D1
    | ATTENDEE_H2 | ATTENDEE_D2 | ATTENDEE_D7
    | NO_SHOW_D1 | NO_SHOW_D3 | NO_SHOW_D7

  /** Idempotency keys of scheduled actions: `cadence:<registration>:<step>` and `send-message:<message>`. */
  datatype ActionKey = CadenceKey(registration: nat, step: CadenceStep) | SendKey(message: nat)

  datatype ActionStatus = PENDING | DISPATCHING | COMPLETED | FAILED | CANCELLED

  datatype Action = Action(registration: nat, status: ActionStatus)

  datatype MessageStatus = SCHEDULED | SENT | DELIVERED | BOUNCED | SUPPRESSED

  /** `origin` is the cadence action that an outbound message was approved for. */
  datatype Message = Message(
    event: nat, lead: nat, registration: nat, purpose: Purpose, status: MessageStatus,
    providerId: Option<string>, origin: Option<ActionKey>)

  /** What is handed to the mail provider under a message id. */
  datatype Email = Email(event: nat, lead: nat, registration: nat, purpose: Purpose, origin: ActionKey)

  datatype TokenKind = CONFIRM | DECLINE | UNSUBSCRIBE

  datatype Token = Token(registration: nat, kind: TokenKind, purpose: Purpose, expiresAt: int, consumed: bool)

  /** Where a dispatcher stands with the action it has claimed. */
  datatype Phase =
    | Idle
    | Claimed(key: ActionKey)
    | Drafting(key: ActionKey)
    | Sending(key: ActionKey, message: nat, email: Email)
    | Accepted(key: ActionKey, message: nat)

  /** `emails` is what the provider has accepted, by message id: it sends one copy per id. */
  datatype Cadence = Cadence(
    enrolled: set<nat>,
    enriched: set<nat>,
    actions: map<ActionKey, Action>,
    messages: map<nat, Message>,
    emails: map<nat, Email>,
    tokens: map<nat, Token>,
    receipts: set<string>,
    dispatchers: map<nat, Phase>)

  datatype State = State(crm: Crm, cadence: Cadence)

  const INITIAL := State(
    Crm(map[], map[], map[], {}, {}, {}, multiset{}, multiset{}, multiset{}),
    Cadence({}, {}, map[], map[], map[], map[], {}, map[]))

  // ---- Registration status ----

  /** The transition table of registrations. */
  predicate CanMove(from: RegistrationStatus, to: RegistrationStatus) {
    match from
    case REGISTERED => to.CONFIRMED? || to.DECLINED?
    case WAITLISTED => to.REGISTERED? || to.DECLINED?
    case CONFIRMED => to.ATTENDED? || to.NO_SHOW? || to.DECLINED?
    case _ => false
  }

  predicate TakesSeat(st: RegistrationStatus) { st.REGISTERED? || st.CONFIRMED? || st.ATTENDED? }

  function Seats(crm: Crm, e: nat): set<nat> {
    set r | r in crm.registrations && crm.registrations[r].event == e && TakesSeat(crm.registrations[r].status)
  }

  function SetStatus(crm: Crm, r: nat, st: RegistrationStatus): Crm
    requires r in crm.registrations
  {
    crm.(registrations := crm.registrations[r := crm.registrations[r].(status := st)])
  }

  // ---- Events and registration ----

  predicate EventMove(from: EventStatus, to: EventStatus) {
    match from
    case DRAFT => to.PUBLISHED?
    case PUBLISHED => to.LIVE? || to.CANCELLED_EVENT?
    case LIVE => to.COMPLETED_EVENT? || to.CANCELLED_EVENT?
    case _ => false
  }

  function AddEvent(crm: Crm, e: nat, row: EventRow): Crm {
    if e in crm.events then crm else crm.(events := crm.events[e := row])
  }

  /** An organiser's move of an event. Publishing is guarded by the status the write finds; the other moves are looked
      up in the status `read` before. */
  function SetEventStatus(crm: Crm, e: nat, to: EventStatus, read: EventStatus): Crm {
    if e !in crm.events || !EventMove(read, to) || (to.PUBLISHED? && !crm.events[e].status.DRAFT?) then crm
    else crm.(events := crm.events[e := crm.events[e].(status := to)])
  }

  predicate LeadWithEmail(crm: Crm, l: nat, email: string) { l in crm.leads && crm.leads[l].email == email }

  predicate EmailTaken(crm: Crm, email: string) { exists l :: l in crm.leads && crm.leads[l].email == email }

  predicate RegisteredFor(crm: Crm, e: nat, l: nat) {
    exists r :: r in crm.registrations && crm.registrations[r].event == e && crm.registrations[r].lead == l
  }

  predicate OpenForRegistration(crm: Crm, e: nat) {
    e in crm.events && (crm.events[e].status.PUBLISHED? || crm.events[e].status.LIVE?)
  }

  /** The serializable registration transaction. `l` is the lead with that normalised address, or an unused
      id when nobody has it; `r` is the id the new registration gets. */
  function Register(crm: Crm, e: nat, email: string, commercial: bool, l: nat, r: nat): Crm {
    if !OpenForRegistration(crm, e) || r in crm.registrations then crm
    else if EmailTaken(crm, email) && !LeadWithEmail(crm, l, email) then crm
    else if !EmailTaken(crm, email) && l in crm.leads then crm
    else if RegisteredFor(crm, e, l) then crm
    else
      Enter(crm, e, email, commercial, l, r,
        if |Seats(crm, e)| >= crm.events[e].capacity then WAITLISTED else REGISTERED)
  }

  /** The rows a new registration adds: the lead if it is new, the registration, its consents and its
      enrichment request. */
  function Enter(crm: Crm, e: nat, email: string, commercial: bool, l: nat, r: nat, st: RegistrationStatus): Crm {
    crm.(leads := if l in crm.leads then crm.leads else crm.leads[l := Lead(email, false)],
         registrations := crm.registrations[r := Registration(e, l, st)],
         consents := crm.consents + {Consent(e, l, EVENT_COMMUNICATION)}
           + (if commercial then {Consent(e, l, COMMERCIAL_FOLLOW_UP)} else {}),
         requests := crm.requests + multiset{r})
  }

  // ---- Consent, suppression and erasure ----

  /** Suppress a lead for a purpose, and withdraw the consent given for one event. */
  function SuppressLead(crm: Crm, e: nat, l: nat, p: Purpose): Crm {
    crm.(suppressions := crm.suppressions + {Suppression(l, p)}, consents := crm.consents - {Consent(e, l, p)})
  }

  function Suppressing(crm: Crm, l: nat, p: Purpose): Crm {
    crm.(suppressions := crm.suppressions + {Suppression(l, p)})
  }

  function WithdrawConsent(crm: Crm, l: nat, p: Purpose): Crm {
    crm.(suppressions := crm.suppressions + {Suppression(l, p)},
         consents := (set c | c in crm.consents && !(c.lead == l && c.purpose == p)))
  }

  /** The address that takes the place of that of the lead with this id. */
  function AnonymousAddress(id: string): string { "deleted+" + id + "@privacy.invalid" }

  function AnonymousEmail(l: nat): string { AnonymousAddress(Digits(l)) }

  function Digits(n: nat): string { if n < 10 then [Digit(n)] else Digits(n / 10) + [Digit(n % 10)] }

  function Digit(d: nat): char
    requires d < 10
  {
    ['0', '1', '2', '3', '4', '5', '6', '7', '8', '9'][d]
  }

  /** Erasure anonymises the lead and marks it suppressed for good; its suppression rows go with its consents. */
  function EraseLead(crm: Crm, l: nat): Crm
    requires l in crm.leads
  {
    crm.(leads := crm.leads[l := Lead(AnonymousEmail(l), true)],
         consents := (set c | c in crm.consents && c.lead != l),
         suppressions := (set x | x in crm.suppressions && x.lead != l))
  }

  // ---- Cadence ----

  function StepPurpose(step: CadenceStep): Purpose {
    match step
    case WELCOME | D14 | D7 | D3 | D1 => EVENT_COMMUNICATION
    case _ => COMMERCIAL_FOLLOW_UP
  }

  const DAY_MS := 86_400_000

  /** The pre-event steps that enrolment schedules: the welcome, and the reminders still ahead. */
  function PreEventSteps(startsAt: int, now: int): seq<CadenceStep> {
    [WELCOME]
    + (if startsAt - 14 * DAY_MS > now then [D14] else [])
    + (if startsAt - 7 * DAY_MS > now then [D7] else [])
    + (if startsAt - 3 * DAY_MS > now then [D3] else [])
    + (if startsAt - DAY_MS > now then [D1] else [])
  }

  function PostEventSteps(st: RegistrationStatus): seq<CadenceStep> {
    match st
    case ATTENDED => [ATTENDEE_H2, ATTENDEE_D2, ATTENDEE_D7]
    case NO_SHOW => [NO_SHOW_D1, NO_SHOW_D3, NO_SHOW_D7]
    case _ => []
  }

  /** Insert the actions of the given steps, leaving those that exist as they are. */
  function Schedule(actions: map<ActionKey, Action>, r: nat, steps: seq<CadenceStep>): map<ActionKey, Action> {
    if steps == [] then actions
    else
      var before := Schedule(actions, r, steps[..|steps| - 1]);
      var key := CadenceKey(r, steps[|steps| - 1]);
      if key in before then before else before[key := Action(r, PENDING)]
  }

  function CancelWhere(actions: map<ActionKey, Action>, r: nat, dispatchingToo: bool): map<ActionKey, Action> {
    map k | k in actions ::
      var st := actions[k].status;
      if actions[k].registration == r && (st.PENDING? || (dispatchingToo && st.DISPATCHING?))
      then actions[k].(status := CANCELLED) else actions[k]
  }

  function StopCadence(c: Cadence, r: nat): Cadence {
    if r !in c.enrolled then c else c.(actions := CancelWhere(c.actions, r, true))
  }

  function SchedulePostEvent(c: Cadence, r: nat, st: RegistrationStatus): Cadence {
    c.(enrolled := c.enrolled + {r},
       actions := Schedule(CancelWhere(c.actions, r, false), r, PostEventSteps(st)))
  }

  // ---- Operations of the API ----

  /** An operator's change. The transition is looked up in the status `read` before the transaction, which may
      be out of date; the transaction writes without looking again. */
  function UpdateStatus(s: State, r: nat, st: RegistrationStatus, read: RegistrationStatus): State {
    if r !in s.crm.registrations || !CanMove(read, st) then s
    else
      State(Promoting(s.crm, r, SetStatus(s.crm, r, st)),
            if st.DECLINED? then StopCadence(s.cadence, r)
            else if st.ATTENDED? || st.NO_SHOW? then SchedulePostEvent(s.cadence, r, st)
            else s.cadence)
  }

  /** Count a move off the waiting list. */
  function Promoting(crm: Crm, r: nat, crm': Crm): Crm
    requires r in crm.registrations && r in crm'.registrations
  {
    if crm.registrations[r].status.WAITLISTED? && crm'.registrations[r].status.REGISTERED?
    then crm'.(promotions := crm'.promotions + multiset{crm.registrations[r].event}) else crm'
  }

  /** What the classification of an inbound body finds; several may hold at once. */
  datatype Intent = Intent(optOut: bool, handoff: bool, confirms: bool, declines: bool)

  /** What a reply writes, if anything: both checks look at the status read before the transaction, and the
      refusal is written last. */
  function WrittenByReply(read: RegistrationStatus, i: Intent): Option<RegistrationStatus> {
    if i.declines && CanMove(read, DECLINED) then Some(DECLINED)
    else if i.confirms && CanMove(read, CONFIRMED) then Some(CONFIRMED)
    else None
  }

  function AfterReply(crm: Crm, r: nat, written: Option<RegistrationStatus>): Crm
    requires r in crm.registrations
  {
    if written.Some? then SetStatus(crm, r, written.value) else crm
  }

  predicate ProviderIdTaken(c: Cadence, id: string) {
    exists m :: m in c.messages && c.messages[m].providerId == Some(id)
  }

  function RecordInbound(
      s: State, r: nat, i: Intent, m: nat, providerId: Option<string>, read: RegistrationStatus): State
  {
    if r !in s.crm.registrations || m in s.cadence.messages || SendKey(m) in s.cadence.actions then s
    else if providerId.Some? && ProviderIdTaken(s.cadence, providerId.value) then s
    else
      var reg := s.crm.registrations[r];
      var crm := AfterReply(s.crm, r, WrittenByReply(read, i));
      var message := Message(reg.event, reg.lead, r, COMMERCIAL_FOLLOW_UP, DELIVERED, providerId, None);
      var cadence := s.cadence.(messages := s.cadence.messages[m := message]);
      State(if i.optOut then SuppressLead(crm, reg.event, reg.lead, COMMERCIAL_FOLLOW_UP) else crm,
            if i.optOut || i.handoff || i.declines then StopCadence(cadence, r) else cadence)
  }

  predicate Overlaps(a: Slot, b: Slot) { a.startsAt < b.endsAt && a.endsAt > b.startsAt }

  predicate SlotFree(slots: multiset<Slot>, slot: Slot) { forall x :: x in slots ==> !Overlaps(x, slot) }

  /** A booking; `seen` are the meetings that the search for a conflict has found before the transaction. */
  function BookMeeting(s: State, r: nat, slot: Slot, seen: multiset<Slot>): State {
    if slot.endsAt <= slot.startsAt || r !in s.crm.registrations || !SlotFree(seen, slot) then s
    else
      State(s.crm.(meetings := s.crm.meetings + {r}, slots := s.crm.slots + multiset{slot}), StopCadence(s.cadence, r))
  }

  function StatusAfterToken(st: RegistrationStatus, kind: TokenKind): RegistrationStatus {
    if kind.CONFIRM? && CanMove(st, CONFIRMED) then CONFIRMED
    else if kind.DECLINE? && CanMove(st, DECLINED) then DECLINED
    else st
  }

  function ConsumePublicAction(s: State, t: nat, now: int): State {
    if t !in s.cadence.tokens || s.cadence.tokens[t].expiresAt <= now || s.cadence.tokens[t].consumed
       || s.cadence.tokens[t].registration !in s.crm.registrations then s
    else
      var token := s.cadence.tokens[t];
      var r := token.registration;
      var reg := s.crm.registrations[r];
      var crm := SetStatus(s.crm, r, StatusAfterToken(reg.status, token.kind));
      var cadence := s.cadence.(tokens := s.cadence.tokens[t := token.(consumed := true)]);
      State(if token.kind.UNSUBSCRIBE? then SuppressLead(crm, reg.event, reg.lead, token.purpose) else crm,
            if token.kind.CONFIRM? then cadence else StopCadence(cadence, r))
  }

  /** Links are issued while a message is drafted, for a registration that exists. */
  function AddToken(s: State, t: nat, token: Token): State {
    if t in s.cadence.tokens || token.registration !in s.crm.registrations then s
    else s.(cadence := s.cadence.(tokens := s.cadence.tokens[t := token]))
  }

  datatype WebhookKind = WAS_SENT | WAS_DELIVERED | WAS_OPENED | WAS_CLICKED | HAS_BOUNCED | HAS_COMPLAINED

  function StatusAfterWebhook(st: MessageStatus, kind: WebhookKind): MessageStatus {
    match kind
    case HAS_BOUNCED | HAS_COMPLAINED => BOUNCED
    case WAS_DELIVERED => DELIVERED
    case _ => st
  }

  predicate WentOut(st: MessageStatus) { st.SENT? || st.DELIVERED? || st.BOUNCED? }

  /** A provider event about message `m`, once per receipt; a bounce or complaint suppresses the lead. The
      message is read before the transaction, so `read` may be any status of a message that has gone out. */
  function ProcessEmailWebhook(s: State, m: nat, receipt: string, kind: WebhookKind, read: MessageStatus): State {
    if m !in s.cadence.messages || s.cadence.messages[m].providerId.None? || !WentOut(read)
       || receipt in s.cadence.receipts then s
    else
      var message := s.cadence.messages[m];
      var st := StatusAfterWebhook(read, kind);
      State(if st.BOUNCED? then Suppressing(s.crm, message.lead, message.purpose) else s.crm,
            s.cadence.(messages := s.cadence.messages[m := message.(status := st)],
                       receipts := s.cadence.receipts + {receipt}))
  }

  function StopAll(c: Cadence, registrations: set<nat>): Cadence {
    c.(actions := map k | k in c.actions ::
      if c.actions[k].registration in registrations && c.actions[k].registration in c.enrolled
         && (c.actions[k].status.PENDING? || c.actions[k].status.DISPATCHING?)
      then c.actions[k].(status := CANCELLED) else c.actions[k])
  }

  function RegistrationsOf(crm: Crm, l: nat): set<nat> {
    set r | r in crm.registrations && crm.registrations[r].lead == l
  }

  /** A withdrawal; `seen` are the lead's registrations as read before the transaction. */
  function Withdraw(s: State, l: nat, p: Purpose, seen: set<nat>): State {
    if l !in s.crm.leads then s else State(WithdrawConsent(s.crm, l, p), StopAll(s.cadence, seen))
  }

  /** Erasing a lead deletes its conversations, and with them its messages, and its tokens. The unique address
      index makes the transaction fail when somebody else holds the anonymous address. */
  function DeleteLeadData(s: State, l: nat): State {
    if l !in s.crm.leads || (exists k :: k in s.crm.leads && k != l && s.crm.leads[k].email == AnonymousEmail(l)) then s
    else
      State(EraseLead(s.crm, l),
            s.cadence.(
              messages := (map m | m in s.cadence.messages && s.cadence.messages[m].lead != l :: s.cadence.messages[m]),
              tokens := (map t | t in s.cadence.tokens && s.cadence.tokens[t].registration !in RegistrationsOf(s.crm, l)
                         :: s.cadence.tokens[t]),
              enriched := s.cadence.enriched - RegistrationsOf(s.crm, l)))
  }

  /** Completing an enrichment enrols the registration when it has event consent and is not disqualified. That
      it was completed before is only looked up before the transaction, so it may be completed again. */
  function CompleteEnrichment(s: State, r: nat, disqualified: bool, now: int): State {
    if r !in s.crm.registrations || s.crm.registrations[r].event !in s.crm.events then s
    else
      var reg := s.crm.registrations[r];
      var enriched := s.cadence.(enriched := s.cadence.enriched + {r});
      if disqualified || Consent(reg.event, reg.lead, EVENT_COMMUNICATION) !in s.crm.consents
      then s.(cadence := enriched)
      else
        s.(cadence := enriched.(
          enrolled := enriched.enrolled + {r},
          actions := Schedule(enriched.actions, r, PreEventSteps(s.crm.events[reg.event].startsAt, now))))
  }

  // ---- The action dispatchers ----

  function PhaseOf(c: Cadence, d: nat): Phase { if d in c.dispatchers then c.dispatchers[d] else Idle }

  predicate SomebodyHolds(c: Cadence, key: ActionKey) {
    exists d :: d in c.dispatchers && !c.dispatchers[d].Idle? && c.dispatchers[d].key == key
  }

  function Become(c: Cadence, d: nat, p: Phase): Cadence { c.(dispatchers := c.dispatchers[d := p]) }

  function Settle(c: Cadence, d: nat, key: ActionKey, st: ActionStatus): Cadence
    requires key in c.actions
  {
    c.(dispatchers := c.dispatchers[d := Idle], actions := c.actions[key := c.actions[key].(status := st)])
  }

  /** Claim a pending action, or one whose dispatcher is gone and whose lease has therefore run out. */
  function Claim(c: Cadence, d: nat, key: ActionKey): Cadence {
    if !PhaseOf(c, d).Idle? || key !in c.actions || SomebodyHolds(c, key)
       || !(c.actions[key].status.PENDING? || c.actions[key].status.DISPATCHING?) then c
    else c.(dispatchers := c.dispatchers[d := Claimed(key)],
            actions := c.actions[key := c.actions[key].(status := DISPATCHING)])
  }

  predicate Counts(m: Message, e: nat, l: nat, p: Purpose) {
    m.origin.Some? && m.event == e && m.lead == l && m.purpose == p && (m.status.SENT? || m.status.DELIVERED?)
  }

  function Delivered(c: Cadence, e: nat, l: nat, p: Purpose): set<nat> {
    set m | m in c.messages && Counts(c.messages[m], e, l, p)
  }

  function DeliveredCount(c: Cadence, e: nat, l: nat, p: Purpose): nat { |Delivered(c, e, l, p)| }

  predicate Blocked(crm: Crm, l: nat, p: Purpose) {
    Suppression(l, p) in crm.suppressions || (l in crm.leads && crm.leads[l].suppressed)
  }

  predicate MeetingFor(crm: Crm, e: nat, l: nat) {
    exists r :: r in crm.meetings && r in crm.registrations
      && crm.registrations[r].event == e && crm.registrations[r].lead == l
  }

  /** The policy as the two dispatcher paths ask it; they differ in how they look for a meeting. */
  function Judgement(s: State, e: nat, l: nat, p: Purpose, r: nat, meeting: bool, now: int): Verdict
    requires r in s.crm.registrations && e in s.crm.events
  {
    Evaluate(PolicyInput(now, s.crm.events[e].offsetMs, p, DeliveredCount(s.cadence, e, l, p),
      s.crm.registrations[r].status, Consent(e, l, p) in s.crm.consents, Blocked(s.crm, l, p), meeting))
  }

  /** Judge a claimed cadence action: draft, retry later, or cancel. */
  function JudgeDecision(s: State, d: nat, now: int): State {
    match PhaseOf(s.cadence, d)
    case Claimed(CadenceKey(r, step)) =>
      if r !in s.crm.registrations || r !in s.cadence.enrolled || CadenceKey(r, step) !in s.cadence.actions
         || s.crm.registrations[r].event !in s.crm.events then s
      else
        var reg := s.crm.registrations[r];
        var key := CadenceKey(r, step);
        s.(cadence :=
          match Judgement(s, reg.event, reg.lead, StepPurpose(step), r, r in s.crm.meetings, now)
          case Allowed => Become(s.cadence, d, Drafting(key))
          case RetryAt(_) => Settle(s.cadence, d, key, PENDING)
          case Refused(_) => Settle(s.cadence, d, key, CANCELLED))
    case _ => s
  }

  /** Store an approved draft: the message, the completion of its action, and the action to send it. */
  function CommitDraft(s: State, d: nat, m: nat): State {
    match PhaseOf(s.cadence, d)
    case Drafting(CadenceKey(r, step)) =>
      var key := CadenceKey(r, step);
      if r !in s.crm.registrations || key !in s.cadence.actions
         || m in s.cadence.messages || SendKey(m) in s.cadence.actions then s
      else
        var reg := s.crm.registrations[r];
        var c := Settle(s.cadence, d, key, COMPLETED);
        s.(cadence := c.(
          messages := c.messages[m := Message(reg.event, reg.lead, r, StepPurpose(step), SCHEDULED, None, Some(key))],
          actions := c.actions[SendKey(m) := Action(r, PENDING)]))
    case _ => s
  }

  /** Judge a claimed send: hand over, retry later, suppress the message, or find it already sent. */
  function JudgeSend(s: State, d: nat, now: int): State {
    match PhaseOf(s.cadence, d)
    case Claimed(SendKey(m)) =>
      var key := SendKey(m);
      if m !in s.cadence.messages || key !in s.cadence.actions || s.cadence.messages[m].origin.None?
         || s.cadence.messages[m].registration !in s.crm.registrations
         || s.cadence.messages[m].event !in s.crm.events then s
      else
        var x := s.cadence.messages[m];
        s.(cadence :=
          if x.status.SENT? || x.status.DELIVERED? then Settle(s.cadence, d, key, COMPLETED)
          else
            AfterSendVerdict(s.cadence, d, m,
              Judgement(s, x.event, x.lead, x.purpose, x.registration, MeetingFor(s.crm, x.event, x.lead), now)))
    case _ => s
  }

  function AfterSendVerdict(c: Cadence, d: nat, m: nat, v: Verdict): Cadence
    requires m in c.messages && SendKey(m) in c.actions && c.messages[m].origin.Some?
  {
    var x := c.messages[m];
    match v
    case Allowed =>
      Become(c, d, Sending(SendKey(m), m, Email(x.event, x.lead, x.registration, x.purpose, x.origin.value)))
    case RetryAt(_) => Settle(c, d, SendKey(m), PENDING)
    case Refused(_) => Settle(c.(messages := c.messages[m := x.(status := SUPPRESSED)]), d, SendKey(m), CANCELLED)
  }

  /** The provider accepts the message; it sends one copy per message id however often it is asked. */
  function HandOver(c: Cadence, d: nat): Cadence {
    match PhaseOf(c, d)
    case Sending(key, m, email) =>
      Become(c.(emails := if m in c.emails then c.emails else c.emails[m := email]), d, Accepted(key, m))
    case _ => c
  }

  /** Record an accepted send. A message erased in the meantime, or a provider id that is taken, is an error
      and leaves the dispatcher on its failure path. */
  function CommitSend(c: Cadence, d: nat, providerId: string, delivered: bool): Cadence {
    match PhaseOf(c, d)
    case Accepted(key, m) =>
      if m !in c.messages || key !in c.actions || ProviderIdTaken(c, providerId) then c
      else
        Settle(c.(messages := c.messages[m := c.messages[m].(
          status := if delivered then DELIVERED else SENT, providerId := Some(providerId))]), d, key, COMPLETED)
    case _ => c
  }

  /** An error at any point: the action is retried later or, after the last attempt, failed. */
  function FailAction(c: Cadence, d: nat, last: bool): Cadence {
    var p := PhaseOf(c, d);
    if p.Idle? || p.key !in c.actions then c else Settle(c, d, p.key, if last then FAILED else PENDING)
  }

  /** A dispatcher that dies leaves its action as it is. */
  function CrashDispatcher(c: Cadence, d: nat): Cadence { Become(c, d, Idle) }

  // ---- Runs ----

  /** The operations of the API and the enrichment worker. What an operation has read before its transaction
      may be out of date, so it comes as an argument. */
  datatype Operation =
    | CreateEvent(e: nat, row: EventRow)
    | MoveEvent(e: nat, to: EventStatus, eventRead: EventStatus)
    | RegisterForEvent(e: nat, email: string, commercial: bool, l: nat, r: nat)
    | OperatorStatus(r: nat, st: RegistrationStatus, read: RegistrationStatus)
    | Inbound(r: nat, intent: Intent, m: nat, providerId: Option<string>, read: RegistrationStatus)
    | Book(r: nat, slot: Slot, seen: multiset<Slot>)
    | PublicAction(t: nat, now: int)
    | Webhook(m: nat, receipt: string, kind: WebhookKind, statusRead: MessageStatus)
    | WithdrawFor(l: nat, p: Purpose, seenOf: set<nat>)
    | Erase(l: nat)
    | Enrich(r: nat, disqualified: bool, now: int)
    | IssueToken(t: nat, token: Token)

  datatype Move =
    | ClaimAction(key: ActionKey)
    | Decide(now: int)
    | Draft(m: nat)
    | CheckSend(now: int)
    | Send
    | Record(id: string, delivered: bool)
    | Fail(last: bool)
    | Crash

  datatype Step = Api(op: Operation) | Dispatcher(d: nat, move: Move)

  function ApplyApi(s: State, op: Operation): State {
    match op
    case CreateEvent(e, row) => s.(crm := AddEvent(s.crm, e, row))
    case MoveEvent(e, to, read) => s.(crm := SetEventStatus(s.crm, e, to, read))
    case RegisterForEvent(e, email, commercial, l, r) => s.(crm := Register(s.crm, e, email, commercial, l, r))
    case OperatorStatus(r, st, read) => UpdateStatus(s, r, st, read)
    case Inbound(r, intent, m, providerId, read) => RecordInbound(s, r, intent, m, providerId, read)
    case Book(r, slot, seen) => BookMeeting(s, r, slot, seen)
    case PublicAction(t, now) => ConsumePublicAction(s, t, now)
    case Webhook(m, receipt, kind, read) => ProcessEmailWebhook(s, m, receipt, kind, read)
    case WithdrawFor(l, p, seen) => Withdraw(s, l, p, seen)
    case Erase(l) => DeleteLeadData(s, l)
    case Enrich(r, disqualified, now) => CompleteEnrichment(s, r, disqualified, now)
    case IssueToken(t, token) => AddToken(s, t, token)
  }

  function ApplyMove(s: State, d: nat, move: Move): State {
    match move
    case ClaimAction(key) => s.(cadence := Claim(s.cadence, d, key))
    case Decide(now) => JudgeDecision(s, d, now)
    case Draft(m) => CommitDraft(s, d, m)
    case CheckSend(now) => JudgeSend(s, d, now)
    case Send => s.(cadence := HandOver(s.cadence, d))
    case Record(id, delivered) => s.(cadence := CommitSend(s.cadence, d, id, delivered))
    case Fail(last) => s.(cadence := FailAction(s.cadence, d, last))
    case Crash => s.(cadence := CrashDispatcher(s.cadence, d))
  }

  function Apply(s: State, step: Step): State {
    match step
    case Api(op) => ApplyApi(s, op)
    case Dispatcher(d, move) => ApplyMove(s, d, move)
  }

  function Run(s: State, steps: seq<Step>): State {
    if steps == [] then s else Apply(Run(s, steps[..|steps| - 1]), steps[|steps| - 1])
  }

  lemma {:induction false} RunAppend(s: State, a: seq<Step>, b: seq<Step>)
    ensures Run(s, a + b) == Run(Run(s, a), b)
  {
    if b == [] {
      assert a + b == a;
    } else {
      assert (a + b)[..|a + b| - 1] == a + b[..|b| - 1];
      RunAppend(s, a, b[..|b| - 1]);
    }
  }

  lemma RunSnoc(s: State, steps: seq<Step>, step: Step)
    ensures Run(s, steps + [step]) == Apply(Run(s, steps), step)
  {
    assert (steps + [step])[..|steps|] == steps;
  }

  // ---- New ids ----

  /** An id that is not in use. */
  function UnusedAbove(ids: set<nat>): nat
    ensures UnusedAbove(ids) !in ids
    ensures forall m :: m in ids ==> m < UnusedAbove(ids)
  {
    if ids == {} then 0 else Largest(ids) + 1
  }

  function Largest(ids: set<nat>): (m: nat)
    requires ids != {}
    ensures m in ids && forall n :: n in ids ==> n <= m
  {
    LargestExists(ids);
    var m :| m in ids && forall n :: n in ids ==> n <= m;
    m
  }

  lemma {:induction false} LargestExists(ids: set<nat>)
    requires ids != {}
    ensures exists m :: m in ids && forall n :: n in ids ==> n <= m
  {
    var x :| x in ids;
    if ids != {x} {
      LargestExists(ids - {x});
      var m :| m in ids - {x} && forall n :: n in ids - {x} ==> n <= m;
      var top := if x > m then x else m;
      forall n | n in ids ensures n <= top { assert n == x || n in ids - {x}; }
      assert top in ids;
    }
  }

  // ---- Steps that work from what they have read ----

  predicate Final(st: RegistrationStatus) { st.DECLINED? || st.ATTENDED? || st.NO_SHOW? }

  /** Writing `to` over a status is harmless when the status is as read, or is `to` already, or is an open one
      that is being declined. */
  predicate HarmlessWrite(st: RegistrationStatus, read: RegistrationStatus, to: RegistrationStatus) {
    st == read || st == to || (to.DECLINED? && !Final(st))
  }

  /** The operation does no harm by working from what it has read. */
  predicate HarmlessOp(crm: Crm, op: Operation) {
    match op
    case OperatorStatus(r, st, read) =>
      r in crm.registrations && CanMove(read, st) ==> HarmlessWrite(crm.registrations[r].status, read, st)
    case Inbound(r, i, _, _, read) =>
      r in crm.registrations && WrittenByReply(read, i).Some? ==>
        HarmlessWrite(crm.registrations[r].status, read, WrittenByReply(read, i).value)
    case _ => true
  }

  predicate Harmless(s: State, step: Step) { step.Api? ==> HarmlessOp(s.crm, step.op) }

  predicate AllHarmless(s: State, steps: seq<Step>) {
    steps != [] ==>
      AllHarmless(s, steps[..|steps| - 1]) && Harmless(Run(s, steps[..|steps| - 1]), steps[|steps| - 1])
  }
}
