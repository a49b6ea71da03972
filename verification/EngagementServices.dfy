/** The services as they run (engagement.service.ts and events.service.ts under apps/api/src/modules, and
    process-lead-enrichment.ts under apps/execution-worker/src/enrichment). A method reads, lets others act for
    as long as the code waits for the database or a provider, and then runs its transaction statement by
    statement. Every call is proved to add one step to the run of the state machine, with the readings it had,
    or none. */
module EngagementServices {
  import opened CommunicationPolicy
  import opened Engagement
  import opened EngagementCrm
  import opened EngagementCadence
  import opened EngagementRows

  /** `Failed` is a transaction that the database has rolled back. */
  datatype Outcome = Done | AlreadyDone | NotFound | Conflict | Failed

  // ---- Loops against their specifications ----

  lemma ScheduleNext(actions: map<ActionKey, Action>, r: nat, steps: seq<CadenceStep>, i: nat)
    requires i < |steps|
    ensures var before, key := Schedule(actions, r, steps[..i]), CadenceKey(r, steps[i]);
      Schedule(actions, r, steps[..i + 1]) == if key in before then before else before[key := Action(r, PENDING)]
  {
    assert steps[..i + 1][..i] == steps[..i];
  }

  /** Stopping one registration after the others is stopping them together. */
  lemma StopNext(c: Cadence, done: set<nat>, r: nat)
    ensures StopCadence(StopAll(c, done), r) == StopAll(c, done + {r})
  {
  }

  lemma StopNone(c: Cadence)
    ensures StopAll(c, {}) == c
  {
  }

  // ---- Runs ----

  /** What others do during `n` waits. */
  function Waits(others: nat -> seq<Step>, from: nat, n: nat): seq<Step> {
    if n == 0 then [] else Waits(others, from, n - 1) + others(from + n - 1)
  }

  lemma WaitsNext(others: nat -> seq<Step>, from: nat, n: nat, trace: seq<Step>)
    ensures trace + Waits(others, from, n) + others(from + n) == trace + Waits(others, from, n + 1)
  {
  }

  /** A message id that neither a message nor a send action uses. */
  function NewMessage(c: Cadence): (m: nat)
    ensures m !in c.messages && SendKey(m) !in c.actions
  {
    UnusedAbove(c.messages.Keys + set k | k in c.actions && k.SendKey? :: k.message)
  }

  /** The lead with an address, or a new id. */
  function LeadFor(crm: Crm, email: string): (l: nat)
    ensures EmailTaken(crm, email) ==> LeadWithEmail(crm, l, email)
    ensures !EmailTaken(crm, email) ==> l !in crm.leads
  {
    var ids := set l | l in crm.leads && crm.leads[l].email == email;
    assert EmailTaken(crm, email) ==> ids != {} by {
      if k :| k in crm.leads && crm.leads[k].email == email { assert k in ids; }
    }
    if ids == {} then UnusedAbove(crm.leads.Keys) else Largest(ids)
  }

  predicate HasProviderId(c: Cadence, m: nat) { m in c.messages && c.messages[m].providerId.Some? }

  /** What an attempt that is not aborted makes of the state `t` that its transaction finds: nothing for an event
      that is not open, nothing for an address that is registered already, and otherwise the new registration. */
  ghost predicate Registered(
      t: State, s: State, e: nat, email: string, commercial: bool, out: Outcome, l: nat, r: nat)
  {
    if e !in t.crm.events || !(t.crm.events[e].status.PUBLISHED? || t.crm.events[e].status.LIVE?)
    then out.NotFound? && s == t
    else
      && out.Done? && AddressRegistered(s.crm, e, email)
      && if AddressRegistered(t.crm, e, email) then s == t else Registers(t, s, e, email, commercial, l, r)
  }

  class EngagementService {
    /** What others do during this service's next wait, by its number. */
    const others: nat -> seq<Step>
    var clock: nat
    var db: State
    /** The run that has led to the present state. */
    ghost var trace: seq<Step>

    constructor (others: nat -> seq<Step>, db: State, ghost history: seq<Step>)
      requires db == Run(INITIAL, history)
      ensures Valid() && this.others == others && this.db == db && trace == history && clock == 0
    {
      this.others, this.clock, this.db := others, 0, db;
      this.trace := history;
    }

    ghost predicate Valid()
      reads this
    {
      db == Run(INITIAL, trace)
    }

    /** The call has added `op` to the run, after one wait. */
    twostate predicate Added(op: Operation)
      reads this
    {
      Valid() && trace == old(trace) + others(old(clock)) + [Api(op)]
    }

    /** The database when the transaction begins. */
    twostate function Waited(): State
      reads this
    {
      Run(INITIAL, old(trace) + others(old(clock)))
    }

    twostate predicate Refused()
      reads this
    {
      Valid() && trace == old(trace) && db == old(db)
    }

    method Wait()
      requires Valid()
      modifies this
      ensures Valid() && trace == old(trace) + others(old(clock)) && clock == old(clock) + 1
      ensures KeepsRegistrations(old(db).crm, db.crm) && old(db).crm.leads.Keys <= db.crm.leads.Keys
    {
      var meanwhile := others(clock);
      RunAppend(INITIAL, trace, meanwhile);
      RowsStay(db, meanwhile);
      db, trace, clock := Run(db, meanwhile), trace + meanwhile, clock + 1;
    }

    /** The transaction that has brought the database from `t` to where it is was operation `op`. */
    ghost method Commit(t: State, op: Operation)
      requires t == Run(INITIAL, trace) && db == ApplyApi(t, op)
      modifies this`trace
      ensures Valid() && trace == old(trace) + [Api(op)]
    {
      RunSnoc(INITIAL, trace, Api(op));
      trace := trace + [Api(op)];
    }

    // ---- Statements of transactions ----

    method SetRegistrationStatus(r: nat, st: RegistrationStatus)
      requires r in db.crm.registrations
      modifies this`db
      ensures db == old(db).(crm := SetStatus(old(db).crm, r, st))
    {
      db := db.(crm := SetStatus(db.crm, r, st));
    }

    /** Cancels everything that is still to do for an enrolled registration. */
    method Stop(r: nat)
      modifies this`db
      ensures db == old(db).(cadence := StopCadence(old(db).cadence, r))
      ensures r in db.cadence.enrolled ==>
        forall k :: k in db.cadence.actions && db.cadence.actions[k].registration == r ==>
          !db.cadence.actions[k].status.PENDING? && !db.cadence.actions[k].status.DISPATCHING?
    {
      if r in db.cadence.enrolled {
        db := db.(cadence := db.cadence.(actions := CancelWhere(db.cadence.actions, r, true)));
      }
    }

    method Suppress(e: nat, l: nat, p: Purpose)
      modifies this`db
      ensures db == old(db).(crm := SuppressLead(old(db).crm, e, l, p)) && Blocked(db.crm, l, p)
    {
      db := db.(crm := db.crm.(suppressions := db.crm.suppressions + {Suppression(l, p)}));
      db := db.(crm := db.crm.(consents := db.crm.consents - {Consent(e, l, p)}));
    }

    /** Upserts the steps one by one; those that exist are left alone. */
    method ScheduleSteps(r: nat, steps: seq<CadenceStep>)
      modifies this`db
      ensures db == old(db).(cadence := old(db).cadence.(actions := Schedule(old(db).cadence.actions, r, steps)))
    {
      ghost var before := db;
      for i := 0 to |steps|
        invariant db == before.(cadence := before.cadence.(actions := Schedule(before.cadence.actions, r, steps[..i])))
      {
        ScheduleNext(before.cadence.actions, r, steps, i);
        var key := CadenceKey(r, steps[i]);
        if key !in db.cadence.actions {
          db := db.(cadence := db.cadence.(actions := db.cadence.actions[key := Action(r, PENDING)]));
        }
      }
      assert steps[..|steps|] == steps;
    }

    method SchedulePost(r: nat, st: RegistrationStatus)
      modifies this`db
      ensures db == old(db).(cadence := SchedulePostEvent(old(db).cadence, r, st))
    {
      db := db.(cadence := db.cadence.(enrolled := db.cadence.enrolled + {r}));
      db := db.(cadence := db.cadence.(actions := CancelWhere(db.cadence.actions, r, false)));
      ScheduleSteps(r, PostEventSteps(st));
    }

    /** Stops the cadences of registrations one after the other. */
    method StopEach(registrations: set<nat>)
      modifies this`db
      ensures db == old(db).(cadence := StopAll(old(db).cadence, registrations))
    {
      var left := registrations;
      ghost var before, done: set<nat> := db, {};
      StopNone(before.cadence);
      while left != {}
        invariant done + left == registrations
        invariant db == before.(cadence := StopAll(before.cadence, done))
        decreases left
      {
        var r :| r in left;
        StopNext(before.cadence, done, r);
        Stop(r);
        left := left - {r};
        done := done + {r};
      }
      assert done == registrations;
    }

    // ---- Calls ----

    /** Moves a registration along the table, as far as the status read tells, or refuses. */
    method UpdateRegistrationStatus(r: nat, st: RegistrationStatus) returns (out: Outcome)
      requires Valid()
      modifies this
      ensures out.NotFound? <==> r !in old(db).crm.registrations
      ensures out.Conflict? <==> r in old(db).crm.registrations && !CanMove(old(db).crm.registrations[r].status, st)
      ensures if out.NotFound? || out.Conflict? then Refused()
              else out.Done? && Added(OperatorStatus(r, st, old(db).crm.registrations[r].status))
      ensures out.Done? ==> MovesTo(Waited(), db, r, st)
    {
      if r !in db.crm.registrations {
        return NotFound;
      }
      var read := db.crm.registrations[r].status;
      if !CanMove(read, st) {
        return Conflict;
      }
      Wait();
      ghost var t := db;
      MoveRegistration(r, st);
      UpdateMoves(t, r, st, read);
      Commit(t, OperatorStatus(r, st, read));
      return Done;
    }

    method MoveRegistration(r: nat, st: RegistrationStatus)
      requires r in db.crm.registrations
      modifies this`db
      ensures forall read :: CanMove(read, st) ==> db == UpdateStatus(old(db), r, st, read)
    {
      var reg := db.crm.registrations[r];
      SetRegistrationStatus(r, st);
      if reg.status.WAITLISTED? && st.REGISTERED? {
        db := db.(crm := db.crm.(promotions := db.crm.promotions + multiset{reg.event}));
      }
      if st.DECLINED? {
        Stop(r);
      }
      if st.ATTENDED? || st.NO_SHOW? {
        SchedulePost(r, st);
      }
    }

    /** Records a reply. Confirming and declining are both looked up in the status read before, and the refusal
        is written last. A known provider id is a duplicate; one that turns up meanwhile fails the transaction. */
    method ReceiveInbound(r: nat, i: Intent, providerId: Option<string>) returns (out: Outcome, m: nat)
      requires Valid()
      modifies this
      ensures out.NotFound? <==> r !in old(db).crm.registrations
      ensures out.AlreadyDone? ==> providerId.Some? && ProviderIdTaken(old(db).cadence, providerId.value)
      ensures out.AlreadyDone? || out.NotFound? || out.Done? || out.Failed?
      ensures providerId.Some? && ProviderIdTaken(old(db).cadence, providerId.value) ==> !out.Done? && !out.Failed?
      ensures out.Failed? ==> providerId.Some? && ProviderIdTaken(Waited().cadence, providerId.value) && db == Waited()
      ensures out.Done? ==> m !in Waited().cadence.messages
      ensures if out.NotFound? || out.AlreadyDone? then Refused()
              else Added(Inbound(r, i, m, providerId, old(db).crm.registrations[r].status))
      ensures out.Done? ==> Replies(Waited(), db, r, i, m, providerId, old(db).crm.registrations[r].status)
      ensures out.Done? ==> r in db.crm.registrations
      ensures out.Done? && i.optOut ==> Blocked(db.crm, db.crm.registrations[r].lead, COMMERCIAL_FOLLOW_UP)
    {
      m := 0;
      if r !in db.crm.registrations {
        return NotFound, m;
      }
      if providerId.Some? && ProviderIdTaken(db.cadence, providerId.value) {
        return AlreadyDone, m;
      }
      var read := db.crm.registrations[r].status;
      Wait();
      ghost var t := db;
      m := NewMessage(db.cadence);
      if providerId.Some? && ProviderIdTaken(db.cadence, providerId.value) {
        out := Failed;
      } else {
        StoreReply(r, i, m, providerId, read);
        InboundReplies(t, r, i, m, providerId, read);
        out := Done;
      }
      Commit(t, Inbound(r, i, m, providerId, read));
    }

    method StoreReply(r: nat, i: Intent, m: nat, providerId: Option<string>, read: RegistrationStatus)
      requires r in db.crm.registrations && m !in db.cadence.messages && SendKey(m) !in db.cadence.actions
      requires providerId.Some? ==> !ProviderIdTaken(db.cadence, providerId.value)
      modifies this`db
      ensures db == RecordInbound(old(db), r, i, m, providerId, read)
    {
      var reg := db.crm.registrations[r];
      var message := Message(reg.event, reg.lead, r, COMMERCIAL_FOLLOW_UP, DELIVERED, providerId, None);
      db := db.(cadence := db.cadence.(messages := db.cadence.messages[m := message]));
      if i.confirms && CanMove(read, CONFIRMED) {
        SetRegistrationStatus(r, CONFIRMED);
      }
      if i.declines && CanMove(read, DECLINED) {
        SetRegistrationStatus(r, DECLINED);
      }
      assert db.crm == AfterReply(old(db).crm, r, WrittenByReply(read, i));
      if i.optOut {
        Suppress(reg.event, reg.lead, COMMERCIAL_FOLLOW_UP);
      }
      if i.optOut || i.handoff || i.declines {
        Stop(r);
      }
    }

    /** Books a meeting unless one was found that overlaps. */
    method Book(r: nat, slot: Slot) returns (out: Outcome)
      requires Valid()
      modifies this
      ensures out.Conflict? <==>
        slot.startsAt < slot.endsAt && r in old(db).crm.registrations && !SlotFree(old(db).crm.slots, slot)
      ensures out.NotFound? ==> slot.endsAt <= slot.startsAt || r !in old(db).crm.registrations
      ensures if out.Conflict? || out.NotFound? then Refused()
              else out.Done? && Added(Operation.Book(r, slot, old(db).crm.slots))
      ensures out.Done? ==> Books(Waited(), db, r, slot)
    {
      if slot.endsAt <= slot.startsAt || r !in db.crm.registrations {
        return NotFound;
      }
      var seen := db.crm.slots;
      if !SlotFree(seen, slot) {
        return Conflict;
      }
      Wait();
      ghost var t := db;
      db := db.(crm := db.crm.(meetings := db.crm.meetings + {r}, slots := db.crm.slots + multiset{slot}));
      Stop(r);
      BookBooks(t, r, slot, seen);
      Commit(t, Operation.Book(r, slot, seen));
      return Done;
    }

    /** Applies a public link once: a consumed link changes nothing and says so. */
    method UsePublicLink(t: nat, now: int) returns (out: Outcome)
      requires Valid()
      modifies this
      ensures Valid() && trace == old(trace) + [Api(PublicAction(t, now))]
      ensures out.NotFound? <==> t !in old(db).cadence.tokens || old(db).cadence.tokens[t].expiresAt <= now
      ensures out.AlreadyDone? <==> !out.NotFound? && old(db).cadence.tokens[t].consumed
      ensures out.AlreadyDone? || out.NotFound? || out.Done?
      ensures out.AlreadyDone? || out.NotFound? ==> db == old(db)
      ensures !out.NotFound? ==> LinksOk(old(db))
      ensures out.Done? ==> UsesLink(old(db), db, t)
      ensures !out.NotFound? ==> t in db.cadence.tokens && db.cadence.tokens[t].consumed
      ensures out.Done? && old(db).cadence.tokens[t].kind.UNSUBSCRIBE? ==>
        var token := old(db).cadence.tokens[t];
        Blocked(db.crm, old(db).crm.registrations[token.registration].lead, token.purpose)
    {
      ghost var before := db;
      RunKeepsLinks(trace);
      if t !in db.cadence.tokens || db.cadence.tokens[t].expiresAt <= now {
        out := NotFound;
      } else if db.cadence.tokens[t].consumed {
        out := AlreadyDone;
      } else {
        ConsumeUsesLink(db, t, now);
        ApplyLink(t, now);
        out := Done;
      }
      Commit(before, PublicAction(t, now));
    }

    method ApplyLink(t: nat, now: int)
      requires t in db.cadence.tokens && !db.cadence.tokens[t].consumed && now < db.cadence.tokens[t].expiresAt
      requires db.cadence.tokens[t].registration in db.crm.registrations
      modifies this`db
      ensures db == ConsumePublicAction(old(db), t, now)
    {
      var token := db.cadence.tokens[t];
      var reg := db.crm.registrations[token.registration];
      var st := StatusAfterToken(reg.status, token.kind);
      if st != reg.status {
        SetRegistrationStatus(token.registration, st);
      }
      assert db.crm == SetStatus(old(db).crm, token.registration, st);
      if token.kind.UNSUBSCRIBE? {
        Suppress(reg.event, reg.lead, token.purpose);
      }
      if token.kind.DECLINE? || token.kind.UNSUBSCRIBE? {
        Stop(token.registration);
      }
      db := db.(cadence := db.cadence.(tokens := db.cadence.tokens[t := token.(consumed := true)]));
    }

    /** Handles a provider event once per receipt, with the status of the message as it was read; a bounce or
        complaint blocks the lead. */
    method ReceiveEmailWebhook(m: nat, receipt: string, kind: WebhookKind) returns (out: Outcome)
      requires Valid()
      modifies this
      ensures out.NotFound? <==> m !in old(db).cadence.messages || old(db).cadence.messages[m].providerId.None?
      ensures if out.NotFound? then Refused() else Added(Webhook(m, receipt, kind, old(db).cadence.messages[m].status))
      ensures out.NotFound? || out.Done? || out.AlreadyDone? || out.Failed?
      ensures out.Done? ==> receipt !in Waited().cadence.receipts
      ensures out.Done? ==> Reports(Waited(), db, m, receipt, kind, old(db).cadence.messages[m].status)
      ensures out.Done? ==> m in db.cadence.messages
      ensures out.AlreadyDone? ==> receipt in Waited().cadence.receipts && db == Waited()
      ensures out.Failed? ==> !HasProviderId(Waited().cadence, m) && db == Waited()
      ensures out.Done? && (kind.HAS_BOUNCED? || kind.HAS_COMPLAINED?) ==>
        Blocked(db.crm, db.cadence.messages[m].lead, db.cadence.messages[m].purpose)
    {
      if m !in db.cadence.messages || db.cadence.messages[m].providerId.None? {
        return NotFound;
      }
      var read := db.cadence.messages[m].status;
      IdMeansOut(trace, m);
      Wait();
      ghost var t := db;
      if m !in db.cadence.messages || db.cadence.messages[m].providerId.None? {
        out := Failed;
      } else if receipt in db.cadence.receipts {
        out := AlreadyDone;
      } else {
        WebhookReports(db, m, receipt, kind, read);
        var message := db.cadence.messages[m];
        var st := StatusAfterWebhook(read, kind);
        db := db.(cadence := db.cadence.(messages := db.cadence.messages[m := message.(status := st)]));
        if st.BOUNCED? {
          db := db.(crm := Suppressing(db.crm, message.lead, message.purpose));
        }
        db := db.(cadence := db.cadence.(receipts := db.cadence.receipts + {receipt}));
        out := Done;
      }
      Commit(t, Webhook(m, receipt, kind, read));
    }

    /** Withdraws a consent everywhere and stops the cadences of the registrations that were read. */
    method WithdrawConsentOf(l: nat, p: Purpose) returns (out: Outcome)
      requires Valid()
      modifies this
      ensures out.NotFound? <==> l !in old(db).crm.leads
      ensures if out.NotFound? then Refused()
              else out.Done? && Added(WithdrawFor(l, p, RegistrationsOf(old(db).crm, l)))
      ensures out.Done? ==> Blocked(db.crm, l, p)
      ensures out.Done? ==> Withdraws(Waited(), db, l, p, RegistrationsOf(old(db).crm, l))
    {
      if l !in db.crm.leads {
        return NotFound;
      }
      var seen := RegistrationsOf(db.crm, l);
      Wait();
      ghost var t := db;
      db := db.(crm := WithdrawConsent(db.crm, l, p));
      StopEach(seen);
      WithdrawWithdraws(t, l, p, seen);
      Commit(t, WithdrawFor(l, p, seen));
      return Done;
    }

    /** Completes an enrichment that was not completed when it was looked up, after the provider's answer. */
    method CompleteLeadEnrichment(r: nat, disqualified: bool, now: int) returns (out: Outcome)
      requires Valid()
      modifies this
      ensures out.NotFound? <==> r !in old(db).crm.registrations
      ensures out.AlreadyDone? <==> r in old(db).crm.registrations && r in old(db).cadence.enriched
      ensures if out.NotFound? || out.AlreadyDone? then Refused()
              else out.Done? && Added(Enrich(r, disqualified, now))
      ensures out.Done? ==> Enriches(Waited(), db, r, disqualified, now)
    {
      if r !in db.crm.registrations {
        return NotFound;
      }
      if r in db.cadence.enriched {
        return AlreadyDone;
      }
      Wait();
      RecordEnrichment(r, disqualified, now);
      return Done;
    }

    /** The transaction after the provider's answer. */
    method RecordEnrichment(r: nat, disqualified: bool, now: int)
      requires Valid() && r in db.crm.registrations
      modifies this
      ensures Valid() && trace == old(trace) + [Api(Enrich(r, disqualified, now))]
      ensures Enriches(old(db), db, r, disqualified, now)
    {
      ghost var t := db;
      RegistrationHasEvent(trace, r);
      Enrol(r, disqualified, now);
      Commit(t, Enrich(r, disqualified, now));
    }

    method Enrol(r: nat, disqualified: bool, now: int)
      requires r in db.crm.registrations && db.crm.registrations[r].event in db.crm.events
      modifies this`db
      ensures db == CompleteEnrichment(old(db), r, disqualified, now)
      ensures Enriches(old(db), db, r, disqualified, now)
    {
      EnrichmentEnriches(db, r, disqualified, now);
      var reg := db.crm.registrations[r];
      db := db.(cadence := db.cadence.(enriched := db.cadence.enriched + {r}));
      if Consent(reg.event, reg.lead, EVENT_COMMUNICATION) in db.crm.consents && !disqualified {
        db := db.(cadence := db.cadence.(enrolled := db.cadence.enrolled + {r}));
        ScheduleSteps(r, PreEventSteps(db.crm.events[reg.event].startsAt, now));
      }
    }

    /** Registers with up to three attempts; `aborted` says which attempts the database aborts, and others act
        before each. Exactly one registration step is added when some attempt is not aborted, and none
        otherwise; when the event is open, the address is registered for it afterwards. `before` is the run up to
        the transaction. */
    method RegisterWithRetries(e: nat, email: string, commercial: bool, aborted: seq<bool>)
        returns (out: Outcome, l: nat, r: nat, tried: nat, ghost before: seq<Step>)
      requires Valid() && |aborted| == 3
      modifies this
      ensures Valid() && 0 < tried <= 3 && (forall i :: 0 <= i < tried - 1 ==> aborted[i])
      ensures if out.Conflict? then tried == 3 && aborted[2] else !aborted[tried - 1]
      ensures before == old(trace) + Waits(others, old(clock), tried)
      ensures trace == before + if out.Conflict? then [] else [Api(RegisterForEvent(e, email, commercial, l, r))]
      ensures !out.Conflict? ==> Registered(Run(INITIAL, before), db, e, email, commercial, out, l, r)
      ensures out.Done? || out.NotFound? || out.Conflict?
    {
      tried, before := 0, trace;
      while tried < 3
        invariant Valid() && tried <= 3 && clock == old(clock) + tried
        invariant forall i :: 0 <= i < tried ==> aborted[i]
        invariant before == trace == old(trace) + Waits(others, old(clock), tried)
        decreases 3 - tried
      {
        WaitsNext(others, old(clock), tried, old(trace));
        out, l, r, before := Attempt(e, email, commercial, aborted[tried]);
        tried := tried + 1;
        if !out.Conflict? {
          return;
        }
      }
      return Conflict, 0, 0, 3, before;
    }

    /** One attempt, after others have acted. */
    method Attempt(e: nat, email: string, commercial: bool, aborted: bool)
        returns (out: Outcome, l: nat, r: nat, ghost before: seq<Step>)
      requires Valid()
      modifies this
      ensures Valid() && clock == old(clock) + 1 && (out.Conflict? <==> aborted)
      ensures before == old(trace) + others(old(clock))
      ensures trace == before + if aborted then [] else [Api(RegisterForEvent(e, email, commercial, l, r))]
      ensures !out.Conflict? ==> Registered(Run(INITIAL, before), db, e, email, commercial, out, l, r)
      ensures out.Done? || out.NotFound? || out.Conflict?
    {
      Wait();
      before := trace;
      if aborted {
        return Conflict, 0, 0, before;
      }
      out, l, r := RegisterOnce(e, email, commercial);
    }

    method RegisterOnce(e: nat, email: string, commercial: bool) returns (out: Outcome, l: nat, r: nat)
      requires Valid()
      modifies this
      ensures Valid() && trace == old(trace) + [Api(RegisterForEvent(e, email, commercial, l, r))]
      ensures clock == old(clock)
      ensures Registered(Run(INITIAL, old(trace)), db, e, email, commercial, out, l, r)
    {
      ghost var t := db;
      l, r := LeadFor(db.crm, email), UnusedAbove(db.crm.registrations.Keys);
      out := if OpenForRegistration(db.crm, e) then Done else NotFound;
      if out.Done? {
        RunKeepsCrm(trace);
        RegisterRegisters(db, e, email, commercial, l, r);
      }
      db := db.(crm := Register(db.crm, e, email, commercial, l, r));
      Commit(t, RegisterForEvent(e, email, commercial, l, r));
    }
  }

  lemma RegistrationHasEvent(trace: seq<Step>, r: nat)
    requires r in Run(INITIAL, trace).crm.registrations
    ensures Run(INITIAL, trace).crm.registrations[r].event in Run(INITIAL, trace).crm.events
  {
    RunKeepsCrm(trace);
  }

  /** A message with a provider id has gone out. */
  lemma IdMeansOut(trace: seq<Step>, m: nat)
    requires m in Run(INITIAL, trace).cadence.messages && Run(INITIAL, trace).cadence.messages[m].providerId.Some?
    ensures WentOut(Run(INITIAL, trace).cadence.messages[m].status)
  {
    RunKeepsInv(trace);
    var s := Run(INITIAL, trace);
    assert MessageOk(s.crm.registrations, s.cadence.actions, m, s.cadence.messages[m]);
  }
}
