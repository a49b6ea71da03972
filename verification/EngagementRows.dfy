/** What every operation of the engagement machine does to the rows that its transaction finds, row by row: which
    registrations, consents, suppressions, meetings, actions, messages and links are there afterwards. */
module EngagementRows {
  import opened CommunicationPolicy
  import opened Engagement
  import opened EngagementCrm
  import opened EngagementCadence

  // ---- The transition table ----

  /** A registration moves one rank up, and an open one can always be declined; nothing else is a move. */
  lemma TableIsOneRankUp(from: RegistrationStatus, to: RegistrationStatus)
    ensures CanMove(from, to) <==> Rank(from) < 3 && (to.DECLINED? || Rank(to) == Rank(from) + 1)
  {
    match from { case _ => }
  }

  /** DECLINED can be entered from the statuses that are open. */
  predicate Open(st: RegistrationStatus) { st.REGISTERED? || st.WAITLISTED? || st.CONFIRMED? }

  function EventRank(st: EventStatus): nat {
    match st
    case DRAFT => 0
    case PUBLISHED => 1
    case LIVE => 2
    case _ => 3
  }

  /** An event moves one rank up, and a published or live one can be cancelled; nothing else is a move. */
  lemma EventsMoveOneRankUp(from: EventStatus, to: EventStatus)
    ensures EventMove(from, to) <==>
      if to.CANCELLED_EVENT? then EventRank(from) == 1 || EventRank(from) == 2
      else EventRank(from) < 3 && EventRank(to) == EventRank(from) + 1
  {
    match from { case _ => }
  }

  /** The organiser's moves: from DRAFT only to PUBLISHED, which looks at the status it writes over; the others go by
      the status read before, whatever the event has become. */
  lemma MoveEventMoves(crm: Crm, e: nat, to: EventStatus, read: EventStatus)
    requires e in crm.events
    ensures var publishes := to.PUBLISHED? && read.DRAFT? && crm.events[e].status.DRAFT?;
      var goesOn := (to.LIVE? && read.PUBLISHED?) || (to.COMPLETED_EVENT? && read.LIVE?);
      var cancels := to.CANCELLED_EVENT? && (read.PUBLISHED? || read.LIVE?);
      SetEventStatus(crm, e, to, read).events
        == if publishes || goesOn || cancels then crm.events[e := crm.events[e].(status := to)] else crm.events
  {
    match read { case _ => }
  }

  // ---- Relations between rows before and after ----

  /** Registration `r` has got status `st`; the others, and its event and lead, are as before. */
  ghost predicate StatusBecomes(crm: Crm, crm': Crm, r: nat, st: RegistrationStatus) {
    r in crm.registrations && crm'.registrations == crm.registrations[r := crm.registrations[r].(status := st)]
  }

  /** The lead is suppressed for a purpose and the consent given for this event is gone; nothing else of the kind has
      changed, unless the lead is left as it was. */
  ghost predicate SuppressedIf(crm: Crm, crm': Crm, reg: Registration, p: Purpose, suppressed: bool) {
    && (forall x :: x in crm'.suppressions <==>
          x in crm.suppressions || (suppressed && x.lead == reg.lead && x.purpose == p))
    && (forall x :: x in crm'.consents <==>
          x in crm.consents && !(suppressed && x.event == reg.event && x.lead == reg.lead && x.purpose == p))
  }

  /** What was still to do for the enrolled registrations among `rs` is cancelled; every other action is as it was. */
  ghost predicate Stops(c: Cadence, c': Cadence, rs: set<nat>) {
    && c'.actions.Keys == c.actions.Keys
    && forall k :: k in c.actions ==>
         var x := c.actions[k];
         if x.registration in rs && x.registration in c.enrolled && (x.status.PENDING? || x.status.DISPATCHING?)
         then c'.actions[k] == Action(x.registration, CANCELLED) else c'.actions[k] == x
  }

  ghost predicate StopsIf(c: Cadence, c': Cadence, r: nat, stops: bool) {
    if stops then Stops(c, c', {r}) else c'.actions == c.actions
  }

  /** Exactly the actions of the wanted steps of `r` that are missing have been added, pending. */
  ghost predicate AddsSteps(
      actions: map<ActionKey, Action>, actions': map<ActionKey, Action>, r: nat, wanted: set<CadenceStep>)
  {
    && (forall k :: k in actions' <==> k in actions || (k.CadenceKey? && k.registration == r && k.step in wanted))
    && (forall k :: k in actions' && k !in actions ==> actions'[k] == Action(r, PENDING))
  }

  /** Nothing about rights and meetings has changed. */
  ghost predicate SameRights(crm: Crm, crm': Crm) {
    crm'.leads == crm.leads && crm'.consents == crm.consents && crm'.suppressions == crm.suppressions
    && crm'.meetings == crm.meetings && crm'.slots == crm.slots && crm'.events == crm.events
    && crm'.requests == crm.requests
  }

  /** Actions and messages apart, the cadence is as it was. */
  ghost predicate SameCorrespondence(c: Cadence, c': Cadence) {
    c'.emails == c.emails && c'.dispatchers == c.dispatchers && c'.receipts == c.receipts && c'.enriched == c.enriched
  }

  // ---- Registration ----

  /** The registrations that take a seat. */
  ghost function Occupied(crm: Crm, e: nat): set<nat> {
    set r | r in crm.registrations && crm.registrations[r].event == e
      && (crm.registrations[r].status.REGISTERED? || crm.registrations[r].status.CONFIRMED?
          || crm.registrations[r].status.ATTENDED?)
  }

  /** A new registration: it gets a seat exactly when fewer are occupied than there are, and is put on the waiting list
      otherwise. The lead is the one with that address, or a new one; there is event consent, and commercial consent
      exactly when it was asked for; and one request for enrichment. */
  ghost predicate Registers(s: State, s': State, e: nat, email: string, commercial: bool, l: nat, r: nat) {
    && e in s.crm.events && r !in s.crm.registrations
    && s'.crm.registrations == s.crm.registrations[r := Registration(e, l,
         if |Occupied(s.crm, e)| < s.crm.events[e].capacity then REGISTERED else WAITLISTED)]
    && (if l in s.crm.leads then s.crm.leads[l].email == email && s'.crm.leads == s.crm.leads
        else s'.crm.leads == s.crm.leads[l := Lead(email, false)])
    && (forall x :: x in s'.crm.consents <==>
          x in s.crm.consents
          || (x.event == e && x.lead == l && (x.purpose.EVENT_COMMUNICATION? || commercial)))
    && s'.crm.requests == s.crm.requests + multiset{r}
    && s'.crm.events == s.crm.events && s'.crm.suppressions == s.crm.suppressions
    && s'.crm.meetings == s.crm.meetings && s'.crm.slots == s.crm.slots && s'.crm.promotions == s.crm.promotions
    && s'.cadence == s.cadence
  }

  ghost predicate AddressRegistered(crm: Crm, e: nat, email: string) {
    exists r :: r in crm.registrations && crm.registrations[r].event == e
      && LeadWithEmail(crm, crm.registrations[r].lead, email)
  }

  lemma EnterRegisters(s: State, e: nat, email: string, commercial: bool, l: nat, r: nat, st: RegistrationStatus)
    requires e in s.crm.events && r !in s.crm.registrations && (l in s.crm.leads ==> s.crm.leads[l].email == email)
    requires st.REGISTERED? <==> |Occupied(s.crm, e)| < s.crm.events[e].capacity
    requires !st.REGISTERED? ==> st.WAITLISTED?
    ensures Registers(s, s.(crm := Enter(s.crm, e, email, commercial, l, r, st)), e, email, commercial, l, r)
  {
    var crm' := Enter(s.crm, e, email, commercial, l, r, st);
    forall x ensures x in crm'.consents <==>
      x in s.crm.consents || (x.event == e && x.lead == l && (x.purpose.EVENT_COMMUNICATION? || commercial))
    {
      var given := {Consent(e, l, EVENT_COMMUNICATION)}
        + if commercial then {Consent(e, l, COMMERCIAL_FOLLOW_UP)} else {};
      assert crm'.consents == s.crm.consents + given;
      assert x == Consent(x.event, x.lead, x.purpose);
      assert x.purpose == EVENT_COMMUNICATION || x.purpose == COMMERCIAL_FOLLOW_UP;
    }
  }

  /** Registering an address for an open event: it was registered for it, and nothing changes, or it is newly registered
      with all that belongs to it. */
  lemma RegisterRegisters(s: State, e: nat, email: string, commercial: bool, l: nat, r: nat)
    requires CrmOk(s.crm) && OpenForRegistration(s.crm, e) && r !in s.crm.registrations
    requires if EmailTaken(s.crm, email) then LeadWithEmail(s.crm, l, email) else l !in s.crm.leads
    ensures var s' := s.(crm := Register(s.crm, e, email, commercial, l, r));
      && AddressRegistered(s'.crm, e, email)
      && if AddressRegistered(s.crm, e, email) then s' == s else Registers(s, s', e, email, commercial, l, r)
  {
    var s' := s.(crm := Register(s.crm, e, email, commercial, l, r));
    if RegisteredFor(s.crm, e, l) {
      var q :| q in s.crm.registrations && s.crm.registrations[q].event == e && s.crm.registrations[q].lead == l;
      assert LeadWithEmail(s.crm, s.crm.registrations[q].lead, email);
    } else {
      AddressIsNew(s.crm, e, email, l);
      assert Occupied(s.crm, e) == Seats(s.crm, e);
      EnterRegisters(s, e, email, commercial, l, r, EntryStatus(s.crm, e));
      assert LeadWithEmail(s'.crm, s'.crm.registrations[r].lead, email);
    }
  }

  lemma AddressIsNew(crm: Crm, e: nat, email: string, l: nat)
    requires CrmOk(crm) && !RegisteredFor(crm, e, l)
    requires if EmailTaken(crm, email) then LeadWithEmail(crm, l, email) else l !in crm.leads
    ensures !AddressRegistered(crm, e, email)
  {
  }

  // ---- Status changes by operators ----

  /** Follow-ups for a final status: what was pending for the registration is cancelled, also follow-ups, and the three
      steps for that status are there; it is enrolled. */
  ghost predicate FollowsUp(c: Cadence, c': Cadence, r: nat, wanted: set<CadenceStep>) {
    && c'.enrolled == c.enrolled + {r}
    && AddsSteps(c.actions, c'.actions, r, wanted)
    && forall k :: k in c.actions ==>
         var x := c.actions[k];
         c'.actions[k] == if x.registration == r && x.status.PENDING? then Action(r, CANCELLED) else x
  }

  /** An operator's change: the registration gets the status; declining stops its cadence, and the two final statuses of
      a guest bring the follow-ups for them. */
  ghost predicate MovesTo(s: State, s': State, r: nat, st: RegistrationStatus) {
    && StatusBecomes(s.crm, s'.crm, r, st) && SameRights(s.crm, s'.crm)
    && s'.cadence.messages == s.cadence.messages && s'.cadence.tokens == s.cadence.tokens
    && SameCorrespondence(s.cadence, s'.cadence)
    && match st
       case ATTENDED => FollowsUp(s.cadence, s'.cadence, r, {ATTENDEE_H2, ATTENDEE_D2, ATTENDEE_D7})
       case NO_SHOW => FollowsUp(s.cadence, s'.cadence, r, {NO_SHOW_D1, NO_SHOW_D3, NO_SHOW_D7})
       case _ => s'.cadence.enrolled == s.cadence.enrolled && StopsIf(s.cadence, s'.cadence, r, st.DECLINED?)
  }

  lemma PostEventFollowsUp(c: Cadence, r: nat, st: RegistrationStatus, wanted: set<CadenceStep>)
    requires forall step :: step in PostEventSteps(st) <==> step in wanted
    ensures FollowsUp(c, SchedulePostEvent(c, r, st), r, wanted)
  {
    var cancelled := CancelWhere(c.actions, r, false);
    ScheduleAdds(cancelled, r, PostEventSteps(st));
    ScheduledArePending(cancelled, r, PostEventSteps(st));
  }

  lemma {:induction false} ScheduledArePending(actions: map<ActionKey, Action>, r: nat, steps: seq<CadenceStep>)
    ensures forall k :: k in Schedule(actions, r, steps) && k !in actions ==>
      Schedule(actions, r, steps)[k] == Action(r, PENDING)
  {
    if steps != [] { ScheduledArePending(actions, r, steps[..|steps| - 1]); }
  }

  lemma UpdateMoves(s: State, r: nat, st: RegistrationStatus, read: RegistrationStatus)
    requires r in s.crm.registrations && CanMove(read, st)
    ensures MovesTo(s, UpdateStatus(s, r, st, read), r, st)
  {
    match st {
      case ATTENDED =>
        PostEventFollowsUp(s.cadence, r, st, {ATTENDEE_H2, ATTENDEE_D2, ATTENDEE_D7});
      case NO_SHOW =>
        PostEventFollowsUp(s.cadence, r, st, {NO_SHOW_D1, NO_SHOW_D3, NO_SHOW_D7});
      case DECLINED => StopCadenceStops(s.cadence, r);
      case _ =>
    }
  }

  lemma StopCadenceStops(c: Cadence, r: nat)
    ensures Stops(c, StopCadence(c, r), {r})
  {
  }

  // ---- Replies ----

  /** The status that a reply leaves: refusing is written last, each only if the status read before allows it. */
  function RepliedStatus(now: RegistrationStatus, read: RegistrationStatus, i: Intent): RegistrationStatus {
    if i.declines && Open(read) then DECLINED
    else if i.confirms && read.REGISTERED? then CONFIRMED
    else now
  }

  /** A reply: the message is stored as delivered inbound mail; the registration confirms or declines as the status read
      before allows; opting out suppresses the lead for commercial mail; and opting out, asking for a person and
      declining stop the cadence. */
  ghost predicate Replies(
      s: State, s': State, r: nat, i: Intent, m: nat, providerId: Option<string>, read: RegistrationStatus)
  {
    && r in s.crm.registrations
    && var reg := s.crm.registrations[r];
    && StatusBecomes(s.crm, s'.crm, r, RepliedStatus(reg.status, read, i))
    && SuppressedIf(s.crm, s'.crm, reg, COMMERCIAL_FOLLOW_UP, i.optOut)
    && s'.crm.leads == s.crm.leads && s'.crm.meetings == s.crm.meetings
    && s'.cadence.messages == s.cadence.messages[m :=
         Message(reg.event, reg.lead, r, COMMERCIAL_FOLLOW_UP, DELIVERED, providerId, None)]
    && StopsIf(s.cadence, s'.cadence, r, i.optOut || i.handoff || i.declines)
    && s'.cadence.enrolled == s.cadence.enrolled && s'.cadence.tokens == s.cadence.tokens
    && SameCorrespondence(s.cadence, s'.cadence)
  }

  lemma SuppressSuppresses(crm: Crm, reg: Registration, p: Purpose)
    ensures SuppressedIf(crm, SuppressLead(crm, reg.event, reg.lead, p), reg, p, true)
  {
    var crm' := SuppressLead(crm, reg.event, reg.lead, p);
    forall x ensures x in crm'.suppressions <==> x in crm.suppressions || (x.lead == reg.lead && x.purpose == p) {
      assert x == Suppression(x.lead, x.purpose);
    }
    forall x ensures x in crm'.consents <==>
      x in crm.consents && !(x.event == reg.event && x.lead == reg.lead && x.purpose == p)
    {
      assert x == Consent(x.event, x.lead, x.purpose);
    }
  }

  lemma InboundReplies(s: State, r: nat, i: Intent, m: nat, providerId: Option<string>, read: RegistrationStatus)
    requires r in s.crm.registrations && m !in s.cadence.messages && SendKey(m) !in s.cadence.actions
    requires providerId.Some? ==> !ProviderIdTaken(s.cadence, providerId.value)
    ensures Replies(s, RecordInbound(s, r, i, m, providerId, read), r, i, m, providerId, read)
  {
    var reg := s.crm.registrations[r];
    ReplyLeaves(s.crm, r, i, read);
    SuppressSuppresses(AfterReply(s.crm, r, WrittenByReply(read, i)), reg, COMMERCIAL_FOLLOW_UP);
    var stored := s.cadence.(messages := s.cadence.messages[m :=
      Message(reg.event, reg.lead, r, COMMERCIAL_FOLLOW_UP, DELIVERED, providerId, None)]);
    StopCadenceStops(stored, r);
  }

  lemma ReplyLeaves(crm: Crm, r: nat, i: Intent, read: RegistrationStatus)
    requires r in crm.registrations
    ensures var crm' := AfterReply(crm, r, WrittenByReply(read, i));
      && StatusBecomes(crm, crm', r, RepliedStatus(crm.registrations[r].status, read, i))
      && crm' == crm.(registrations := crm'.registrations)
  {
    var reg := crm.registrations[r];
    assert crm.registrations[r := reg] == crm.registrations;
    match read { case _ => }
  }

  // ---- Bookings ----

  /** A booking: the meeting is there, the cadence of its registration is stopped, and nothing else has changed. */
  ghost predicate Books(s: State, s': State, r: nat, slot: Slot) {
    && s'.crm == s.crm.(meetings := s.crm.meetings + {r}, slots := s.crm.slots + multiset{slot})
    && Stops(s.cadence, s'.cadence, {r}) && s'.cadence == s.cadence.(actions := s'.cadence.actions)
  }

  lemma BookBooks(s: State, r: nat, slot: Slot, seen: multiset<Slot>)
    requires slot.startsAt < slot.endsAt && r in s.crm.registrations && SlotFree(seen, slot)
    ensures Books(s, BookMeeting(s, r, slot, seen), r, slot)
  {
    StopCadenceStops(s.cadence, r);
  }

  predicate During(a: Slot, t: int) { a.startsAt <= t < a.endsAt }

  /** Slots that are not empty overlap exactly when there is a time that both contain; one may begin as the other
      ends. */
  lemma OverlapsExactly(a: Slot, b: Slot)
    requires a.startsAt < a.endsAt && b.startsAt < b.endsAt
    ensures Overlaps(a, b) <==> exists t :: During(a, t) && During(b, t)
  {
    if Overlaps(a, b) {
      var t := if a.startsAt < b.startsAt then b.startsAt else a.startsAt;
      assert During(a, t) && During(b, t);
    }
  }

  // ---- Public links ----

  /** What a link makes of a status: confirming is for those registered, declining for those not at the end yet. */
  function LinkedStatus(st: RegistrationStatus, kind: TokenKind): RegistrationStatus {
    match kind
    case CONFIRM => if st.REGISTERED? then CONFIRMED else st
    case DECLINE => if Open(st) then DECLINED else st
    case UNSUBSCRIBE => st
  }

  /** A link is used: it is consumed; the registration confirms or declines if its status allows it; unsubscribing
      suppresses the lead for the purpose of the link; declining and unsubscribing stop the cadence, and confirming
      leaves it alone. */
  ghost predicate UsesLink(s: State, s': State, t: nat) {
    && t in s.cadence.tokens && s.cadence.tokens[t].registration in s.crm.registrations
    && var token := s.cadence.tokens[t]; var reg := s.crm.registrations[token.registration];
    && s'.cadence.tokens == s.cadence.tokens[t := token.(consumed := true)]
    && StatusBecomes(s.crm, s'.crm, token.registration, LinkedStatus(reg.status, token.kind))
    && SuppressedIf(s.crm, s'.crm, reg, token.purpose, token.kind.UNSUBSCRIBE?)
    && s'.crm.leads == s.crm.leads && s'.crm.meetings == s.crm.meetings
    && StopsIf(s.cadence, s'.cadence, token.registration, !token.kind.CONFIRM?)
    && s'.cadence.messages == s.cadence.messages && s'.cadence.enrolled == s.cadence.enrolled
    && SameCorrespondence(s.cadence, s'.cadence)
  }

  lemma ConsumeUsesLink(s: State, t: nat, now: int)
    requires t in s.cadence.tokens && !s.cadence.tokens[t].consumed && now < s.cadence.tokens[t].expiresAt
    requires s.cadence.tokens[t].registration in s.crm.registrations
    ensures UsesLink(s, ConsumePublicAction(s, t, now), t)
  {
    var token := s.cadence.tokens[t];
    var reg := s.crm.registrations[token.registration];
    LinkLeaves(s.crm, token.registration, token.kind);
    SuppressSuppresses(SetStatus(s.crm, token.registration, LinkedStatus(reg.status, token.kind)), reg, token.purpose);
    StopCadenceStops(s.cadence.(tokens := s.cadence.tokens[t := token.(consumed := true)]), token.registration);
  }

  lemma LinkLeaves(crm: Crm, r: nat, kind: TokenKind)
    requires r in crm.registrations
    ensures StatusAfterToken(crm.registrations[r].status, kind) == LinkedStatus(crm.registrations[r].status, kind)
    ensures var st := LinkedStatus(crm.registrations[r].status, kind);
      StatusBecomes(crm, SetStatus(crm, r, st), r, st)
  {
    match crm.registrations[r].status { case _ => }
  }

  /** A link that is issued works once, until it expires: its first use does what its kind says, and a second one does
      nothing, whenever it comes. */
  lemma IssuedLinkWorksOnce(s: State, t: nat, token: Token, now: int, later: int)
    requires t !in s.cadence.tokens && token.registration in s.crm.registrations
    requires !token.consumed && now < token.expiresAt
    ensures var issued := AddToken(s, t, token); var used := ConsumePublicAction(issued, t, now);
      && issued == s.(cadence := s.cadence.(tokens := s.cadence.tokens[t := token]))
      && UsesLink(issued, used, t) && ConsumePublicAction(used, t, later) == used
  {
    ConsumeUsesLink(AddToken(s, t, token), t, now);
  }

  // ---- Reports of the mail provider ----

  /** The status that a report leaves; `read` is what the message had when it was looked up. */
  function ReportedStatus(read: MessageStatus, kind: WebhookKind): MessageStatus {
    if kind.HAS_BOUNCED? || kind.HAS_COMPLAINED? then BOUNCED
    else if kind.WAS_DELIVERED? then DELIVERED
    else read
  }

  /** A report: it is on file, the message has the status reported, and a message that is bounced by then suppresses its
      lead for its purpose. */
  ghost predicate Reports(s: State, s': State, m: nat, receipt: string, kind: WebhookKind, read: MessageStatus) {
    && m in s.cadence.messages
    && var x := s.cadence.messages[m];
    && s'.cadence == s.cadence.(
         messages := s.cadence.messages[m := x.(status := ReportedStatus(read, kind))],
         receipts := s.cadence.receipts + {receipt})
    && s'.crm == s.crm.(suppressions := s'.crm.suppressions)
    && forall y :: y in s'.crm.suppressions <==>
         y in s.crm.suppressions
         || (ReportedStatus(read, kind).BOUNCED? && y.lead == x.lead && y.purpose == x.purpose)
  }

  lemma WebhookReports(s: State, m: nat, receipt: string, kind: WebhookKind, read: MessageStatus)
    requires m in s.cadence.messages && s.cadence.messages[m].providerId.Some? && WentOut(read)
    requires receipt !in s.cadence.receipts
    ensures Reports(s, ProcessEmailWebhook(s, m, receipt, kind, read), m, receipt, kind, read)
  {
    var x, s' := s.cadence.messages[m], ProcessEmailWebhook(s, m, receipt, kind, read);
    assert StatusAfterWebhook(read, kind) == ReportedStatus(read, kind) by { match kind { case _ => } }
    forall y ensures y in s'.crm.suppressions <==>
      y in s.crm.suppressions
      || (ReportedStatus(read, kind).BOUNCED? && y.lead == x.lead && y.purpose == x.purpose)
    {
      assert y == Suppression(y.lead, y.purpose);
    }
  }

  // ---- Withdrawal ----

  /** A withdrawal: the lead is suppressed for the purpose, its consents for it are gone for all events, and the
      cadences of the registrations that were read are stopped. */
  ghost predicate Withdraws(s: State, s': State, l: nat, p: Purpose, seen: set<nat>) {
    && (forall x :: x in s'.crm.consents <==> x in s.crm.consents && !(x.lead == l && x.purpose == p))
    && (forall x :: x in s'.crm.suppressions <==> x in s.crm.suppressions || (x.lead == l && x.purpose == p))
    && s'.crm == s.crm.(consents := s'.crm.consents, suppressions := s'.crm.suppressions)
    && Stops(s.cadence, s'.cadence, seen) && s'.cadence == s.cadence.(actions := s'.cadence.actions)
  }

  lemma WithdrawWithdraws(s: State, l: nat, p: Purpose, seen: set<nat>)
    requires l in s.crm.leads
    ensures Withdraws(s, Withdraw(s, l, p, seen), l, p, seen)
  {
    var s' := Withdraw(s, l, p, seen);
    forall x ensures x in s'.crm.suppressions <==> x in s.crm.suppressions || (x.lead == l && x.purpose == p) {
      assert x == Suppression(x.lead, x.purpose);
    }
  }

  // ---- Enrichment ----

  /** The pre-event steps that are due later than `now`, and the welcome. */
  function StepsAhead(startsAt: int, now: int): set<CadenceStep> {
    {WELCOME}
    + (if now < startsAt - 1_209_600_000 then {D14} else {})
    + (if now < startsAt - 604_800_000 then {D7} else {})
    + (if now < startsAt - 259_200_000 then {D3} else {})
    + (if now < startsAt - 86_400_000 then {D1} else {})
  }

  /** A completed enrichment: the registration is enrolled, with the welcome and the reminders still ahead, exactly when
      it has event consent and is not disqualified; actions that exist are left alone. */
  ghost predicate Enriches(s: State, s': State, r: nat, disqualified: bool, now: int) {
    && r in s.crm.registrations && s.crm.registrations[r].event in s.crm.events
    && var reg := s.crm.registrations[r];
    && var enrols := !disqualified && Consent(reg.event, reg.lead, EVENT_COMMUNICATION) in s.crm.consents;
    && s'.crm == s.crm && s'.cadence.enriched == s.cadence.enriched + {r}
    && s'.cadence.enrolled == s.cadence.enrolled + (if enrols then {r} else {})
    && AddsSteps(s.cadence.actions, s'.cadence.actions, r,
                 if enrols then StepsAhead(s.crm.events[reg.event].startsAt, now) else {})
    && (forall k :: k in s.cadence.actions ==> s'.cadence.actions[k] == s.cadence.actions[k])
    && s'.cadence == s.cadence.(enriched := s'.cadence.enriched, enrolled := s'.cadence.enrolled,
                                actions := s'.cadence.actions)
  }

  lemma PreEventStepsAhead(startsAt: int, now: int, step: CadenceStep)
    ensures step in PreEventSteps(startsAt, now) <==> step in StepsAhead(startsAt, now)
  {
    RemindersAhead(startsAt, now, step);
    match step { case _ => }
  }

  lemma EnrichmentEnriches(s: State, r: nat, disqualified: bool, now: int)
    requires r in s.crm.registrations && s.crm.registrations[r].event in s.crm.events
    ensures Enriches(s, CompleteEnrichment(s, r, disqualified, now), r, disqualified, now)
  {
    var startsAt := s.crm.events[s.crm.registrations[r].event].startsAt;
    ScheduleAdds(s.cadence.actions, r, PreEventSteps(startsAt, now));
    ScheduledArePending(s.cadence.actions, r, PreEventSteps(startsAt, now));
    forall step ensures step in PreEventSteps(startsAt, now) <==> step in StepsAhead(startsAt, now) {
      PreEventStepsAhead(startsAt, now, step);
    }
  }

  // ---- What the policy objects to ----

  /** The outbound messages to a lead about an event and for a purpose that are sent or delivered. */
  ghost function Mailed(c: Cadence, e: nat, l: nat, p: Purpose): set<nat> {
    set m | m in c.messages && c.messages[m].origin.Some? && c.messages[m].event == e && c.messages[m].lead == l
      && c.messages[m].purpose == p && (c.messages[m].status.SENT? || c.messages[m].status.DELIVERED?)
  }

  /** Some ground of refusal holds: no consent, a suppression for the purpose or of the lead altogether, a booked
      meeting, a declined registration, or as many messages as there may be. */
  ghost predicate Objected(s: State, e: nat, l: nat, p: Purpose, st: RegistrationStatus, meeting: bool) {
    || Consent(e, l, p) !in s.crm.consents
    || Suppression(l, p) in s.crm.suppressions
    || (l in s.crm.leads && s.crm.leads[l].suppressed)
    || meeting
    || st.DECLINED?
    || |Mailed(s.cadence, e, l, p)| >= if p.EVENT_COMMUNICATION? then 5 else 4
  }

  /** From eight to eighteen o'clock at the event. */
  predicate InHours(s: State, e: nat, now: int)
    requires e in s.crm.events
  {
    8 <= ((now + s.crm.events[e].offsetMs) / 3_600_000) % 24 < 18
  }

  /** The policy refuses exactly when some ground holds, whatever the hour, and otherwise only the hour counts. */
  lemma JudgesExactly(s: State, e: nat, l: nat, p: Purpose, r: nat, meeting: bool, now: int)
    requires r in s.crm.registrations && e in s.crm.events
    ensures var v := Judgement(s, e, l, p, r, meeting, now);
      && (v.Refused? <==> Objected(s, e, l, p, s.crm.registrations[r].status, meeting))
      && (v.Allowed? <==>
            !Objected(s, e, l, p, s.crm.registrations[r].status, meeting) && InHours(s, e, now))
  {
    assert Mailed(s.cadence, e, l, p) == Delivered(s.cadence, e, l, p);
  }

  /** The dispatcher has let go of an action with this status, and changed no other. */
  ghost predicate Ends(c: Cadence, c': Cadence, d: nat, key: ActionKey, st: ActionStatus)
    requires key in c.actions
  {
    c'.actions == c.actions[key := Action(c.actions[key].registration, st)] && PhaseOf(c', d).Idle?
  }

  // ---- Decisions ----

  /** What deciding a cadence action needs: an enrolled registration and its event. */
  predicate CanDecide(s: State, key: ActionKey) {
    && key.CadenceKey? && key.registration in s.crm.registrations && key.registration in s.cadence.enrolled
    && s.crm.registrations[key.registration].event in s.crm.events
  }

  /** There is a ground for cancelling the step. */
  ghost predicate StepObjected(s: State, key: ActionKey)
    requires CanDecide(s, key)
  {
    var reg := s.crm.registrations[key.registration];
    Objected(s, reg.event, reg.lead, StepPurpose(key.step), reg.status, key.registration in s.crm.meetings)
  }

  predicate StepInHours(s: State, key: ActionKey, now: int)
    requires CanDecide(s, key)
  {
    InHours(s, s.crm.registrations[key.registration].event, now)
  }

  /** A claimed step is cancelled if there is a ground, put back if there is none but the hour, and drafted otherwise;
      nothing else has changed. */
  lemma DecidesExactly(s: State, d: nat, key: ActionKey, now: int)
    requires PhaseOf(s.cadence, d) == Claimed(key) && key.CadenceKey? && key in s.cadence.actions
    ensures var s' := JudgeDecision(s, d, now);
      if !CanDecide(s, key) then s' == s
      else
        && s' == s.(cadence := s.cadence.(actions := s'.cadence.actions, dispatchers := s'.cadence.dispatchers))
        && (StepObjected(s, key) ==> Ends(s.cadence, s'.cadence, d, key, CANCELLED))
        && (!StepObjected(s, key) && !StepInHours(s, key, now) ==> Ends(s.cadence, s'.cadence, d, key, PENDING))
        && (!StepObjected(s, key) && StepInHours(s, key, now) ==>
              s'.cadence.actions == s.cadence.actions && PhaseOf(s'.cadence, d) == Drafting(key))
  {
    if CanDecide(s, key) {
      var r, reg := key.registration, s.crm.registrations[key.registration];
      JudgesExactly(s, reg.event, reg.lead, StepPurpose(key.step), r, r in s.crm.meetings, now);
    }
  }

  // ---- Drafts ----

  /** What storing a draft needs: the registration, and an id that no message has. */
  predicate CanStore(s: State, key: ActionKey, m: nat) {
    && key.CadenceKey? && key in s.cadence.actions && key.registration in s.crm.registrations
    && m !in s.cadence.messages && SendKey(m) !in s.cadence.actions
  }

  /** A draft is stored: the step is completed, its message is scheduled with the purpose of the step, and there is a
      pending action to send it; nothing else has changed. */
  lemma StoresExactly(s: State, d: nat, key: ActionKey, m: nat)
    requires PhaseOf(s.cadence, d) == Drafting(key) && key.CadenceKey?
    ensures var s' := CommitDraft(s, d, m);
      if !CanStore(s, key, m) then s' == s
      else
        var reg, step := s.crm.registrations[key.registration], key.step;
        var purpose := if step in {WELCOME, D14, D7, D3, D1} then EVENT_COMMUNICATION else COMMERCIAL_FOLLOW_UP;
        && s' == s.(cadence := s.cadence.(
             actions := s'.cadence.actions, dispatchers := s'.cadence.dispatchers, messages := s'.cadence.messages))
        && PhaseOf(s'.cadence, d).Idle?
        && s'.cadence.actions == s.cadence.actions[
             key := Action(s.cadence.actions[key].registration, COMPLETED)][
             SendKey(m) := Action(key.registration, PENDING)]
        && s'.cadence.messages == s.cadence.messages[m :=
             Message(reg.event, reg.lead, key.registration, purpose, SCHEDULED, None, Some(key))]
  {
  }

  // ---- Sends ----

  /** What checking a send needs: the message, its registration and its event. */
  predicate CanCheck(s: State, m: nat) {
    && m in s.cadence.messages && s.cadence.messages[m].origin.Some?
    && s.cadence.messages[m].registration in s.crm.registrations && s.cadence.messages[m].event in s.crm.events
  }

  predicate IsOut(s: State, m: nat)
    requires CanCheck(s, m)
  {
    s.cadence.messages[m].status.SENT? || s.cadence.messages[m].status.DELIVERED?
  }

  /** There is a ground for suppressing the message; here any meeting of the lead at the event counts. */
  ghost predicate MailObjected(s: State, m: nat)
    requires CanCheck(s, m)
  {
    var x := s.cadence.messages[m];
    Objected(s, x.event, x.lead, x.purpose, s.crm.registrations[x.registration].status,
      exists r :: r in s.crm.meetings && r in s.crm.registrations
        && s.crm.registrations[r].event == x.event && s.crm.registrations[r].lead == x.lead)
  }

  predicate MailInHours(s: State, m: nat, now: int)
    requires CanCheck(s, m)
  {
    InHours(s, s.cadence.messages[m].event, now)
  }

  /** A claimed send is completed if its message is out already, suppressed and cancelled if there is a ground, put
      back if there is none but the hour, and otherwise handed to the provider, for the message's registration. */
  lemma ChecksExactly(s: State, d: nat, m: nat, now: int)
    requires PhaseOf(s.cadence, d) == Claimed(SendKey(m)) && SendKey(m) in s.cadence.actions
    ensures var s' := JudgeSend(s, d, now); var ms := s.cadence.messages;
      if !CanCheck(s, m) then s' == s
      else
        && s' == s.(cadence := s.cadence.(
             actions := s'.cadence.actions, dispatchers := s'.cadence.dispatchers, messages := s'.cadence.messages))
        && (IsOut(s, m) ==> Ends(s.cadence, s'.cadence, d, SendKey(m), COMPLETED) && s'.cadence.messages == ms)
        && (!IsOut(s, m) && MailObjected(s, m) ==>
              && Ends(s.cadence, s'.cadence, d, SendKey(m), CANCELLED)
              && s'.cadence.messages == ms[m := ms[m].(status := SUPPRESSED)])
        && (!IsOut(s, m) && !MailObjected(s, m) && !MailInHours(s, m, now) ==>
              Ends(s.cadence, s'.cadence, d, SendKey(m), PENDING) && s'.cadence.messages == ms)
        && (!IsOut(s, m) && !MailObjected(s, m) && MailInHours(s, m, now) ==>
              && s'.cadence.actions == s.cadence.actions && s'.cadence.messages == ms
              && PhaseOf(s'.cadence, d) == Sending(SendKey(m), m,
                   Email(ms[m].event, ms[m].lead, ms[m].registration, ms[m].purpose, ms[m].origin.value)))
  {
    if CanCheck(s, m) {
      var x := s.cadence.messages[m];
      JudgesExactly(s, x.event, x.lead, x.purpose, x.registration, MeetingFor(s.crm, x.event, x.lead), now);
    }
  }

  /** The mail is with the provider, which keeps what it has under that id; nothing else has changed. */
  lemma HandsOverExactly(s: State, d: nat, m: nat, email: Email)
    requires PhaseOf(s.cadence, d) == Sending(SendKey(m), m, email)
    ensures var c, c' := s.cadence, HandOver(s.cadence, d);
      && c' == c.(emails := c'.emails, dispatchers := c'.dispatchers) && PhaseOf(c', d) == Accepted(SendKey(m), m)
      && c'.emails == (if m in c.emails then c.emails else c.emails[m := email])
  {
  }

  /** What recording an acceptance needs: the message, and a provider id that no message has. */
  predicate CanRecord(c: Cadence, m: nat, id: string) {
    && m in c.messages && SendKey(m) in c.actions
    && forall k :: k in c.messages ==> c.messages[k].providerId != Some(id)
  }

  /** An acceptance is recorded: the message is sent, or delivered if the provider says so, under the provider's id, and
      its send is completed; nothing else has changed. */
  lemma RecordsExactly(c: Cadence, d: nat, m: nat, id: string, delivered: bool)
    requires PhaseOf(c, d) == Accepted(SendKey(m), m)
    ensures var c' := CommitSend(c, d, id, delivered);
      if !CanRecord(c, m, id) then c' == c
      else
        && c' == c.(actions := c'.actions, dispatchers := c'.dispatchers, messages := c'.messages)
        && Ends(c, c', d, SendKey(m), COMPLETED)
        && c'.messages == c.messages[m :=
             c.messages[m].(status := if delivered then DELIVERED else SENT, providerId := Some(id))]
  {
  }
}
