/** The message limit of the communication policy over whole runs of the engagement machine: whatever is scheduled,
    reported and erased, however old the readings, and whatever crashes. */
module EngagementLimits {
  import opened CommunicationPolicy
  import opened Engagement
  import opened EngagementCrm
  import opened EngagementCadence
  import opened EngagementTheorems

  /** An event, a lead and a purpose. */
  datatype Topic = Topic(event: nat, lead: nat, purpose: Purpose)

  predicate About(x: Message, t: Topic) {
    x.origin.Some? && x.event == t.event && x.lead == t.lead && x.purpose == t.purpose
  }

  /** The messages on a topic that have gone out. */
  ghost function Out(c: Cadence, t: Topic): set<nat> {
    set m | m in c.messages && About(c.messages[m], t) && WentOut(c.messages[m].status)
  }

  /** The dispatcher has the go-ahead for a message, and has not recorded it yet. */
  predicate InHand(p: Phase) { p.Sending? || p.Accepted? }

  predicate BusyWith(c: Cadence, p: Phase, t: Topic) {
    InHand(p) && p.message in c.messages && About(c.messages[p.message], t)
  }

  ghost function Busy(c: Cadence, t: Topic): set<nat> {
    set d | d in c.dispatchers && BusyWith(c, c.dispatchers[d], t)
  }

  /** A message that has bounced means that its lead is blocked. */
  ghost predicate BouncesBlock(s: State) {
    forall m ::
      m in s.cadence.messages && s.cadence.messages[m].origin.Some? && s.cadence.messages[m].status.BOUNCED? ==>
      Blocked(s.crm, s.cadence.messages[m].lead, s.cadence.messages[m].purpose)
  }

  ghost predicate Within(c: Cadence, t: Topic) {
    |Out(c, t)| + |Busy(c, t)| < Limit(t.purpose) + |c.dispatchers|
  }

  // ---- Steps that send nothing ----

  /** Nothing more is out or in hand, and no dispatcher is forgotten. */
  ghost predicate Shrinks(c: Cadence, c': Cadence, t: Topic) {
    Out(c', t) <= Out(c, t) && Busy(c', t) <= Busy(c, t) && c.dispatchers.Keys <= c'.dispatchers.Keys
  }

  lemma ShrinkingKeepsWithin(c: Cadence, c': Cadence, t: Topic)
    requires Within(c, t) && Shrinks(c, c', t)
    ensures Within(c', t)
  {
    SubsetSize(Out(c', t), Out(c, t));
    SubsetSize(Busy(c', t), Busy(c, t));
    SubsetSize(c.dispatchers.Keys, c'.dispatchers.Keys);
    assert |c.dispatchers| == |c.dispatchers.Keys| && |c'.dispatchers| == |c'.dispatchers.Keys|;
  }

  /** An operation leaves a message as it is, removes it, stores an inbound one under a new id, or updates the
      delivery status of one that has gone out. */
  ghost predicate LeavesMessages(c: Cadence, c': Cadence) {
    && c'.dispatchers == c.dispatchers
    && forall m :: m in c'.messages && c'.messages[m].origin.Some? ==>
         && m in c.messages && c'.messages[m].(status := c.messages[m].status) == c.messages[m]
         && (c'.messages[m].status == c.messages[m].status || c.messages[m].providerId.Some?)
  }

  lemma InboundLeavesMessages(s: State, r: nat, i: Intent, m: nat, id: Option<string>, read: RegistrationStatus)
    ensures LeavesMessages(s.cadence, RecordInbound(s, r, i, m, id, read).cadence)
  {
  }

  lemma WebhookLeavesMessages(s: State, m: nat, receipt: string, kind: WebhookKind, read: MessageStatus)
    ensures LeavesMessages(s.cadence, ProcessEmailWebhook(s, m, receipt, kind, read).cadence)
  {
  }

  lemma EraseLeavesMessages(s: State, l: nat)
    ensures LeavesMessages(s.cadence, DeleteLeadData(s, l).cadence)
  {
  }

  lemma OthersLeaveMessages(s: State, op: Operation)
    requires !op.Inbound? && !op.Webhook? && !op.Erase?
    ensures ApplyApi(s, op).cadence.messages == s.cadence.messages
  {
    match op {
      case OperatorStatus(r, st, read) => assert UpdateStatus(s, r, st, read).cadence.messages == s.cadence.messages;
      case PublicAction(t, now) => assert ConsumePublicAction(s, t, now).cadence.messages == s.cadence.messages;
      case _ =>
    }
  }

  lemma OperationsLeaveMessages(s: State, op: Operation)
    ensures LeavesMessages(s.cadence, ApplyApi(s, op).cadence)
  {
    match op {
      case Inbound(r, i, m, id, read) => InboundLeavesMessages(s, r, i, m, id, read);
      case Webhook(m, receipt, kind, read) => WebhookLeavesMessages(s, m, receipt, kind, read);
      case Erase(l) => EraseLeavesMessages(s, l);
      case _ =>
        OthersLeaveMessages(s, op);
        OperationsMailNothing(s, op);
    }
  }

  /** A message with a provider id had gone out before. */
  lemma OperationShrinks(s: State, op: Operation, t: Topic)
    requires Inv(s)
    ensures Shrinks(s.cadence, ApplyApi(s, op).cadence, t)
  {
    OperationsLeaveMessages(s, op);
    var c, c' := s.cadence, ApplyApi(s, op).cadence;
    forall m | m in Out(c', t) ensures m in Out(c, t) {
      assert MessageOk(s.crm.registrations, c.actions, m, c.messages[m]);
    }
  }

  /** The dispatcher that moves is not busy afterwards, or was busy with the same before. */
  lemma MoveShrinks(s: State, d: nat, move: Move, t: Topic)
    requires Inv(s) && !move.CheckSend? && !move.Record? && !move.Draft?
    ensures Shrinks(s.cadence, ApplyMove(s, d, move).cadence, t)
  {
    match move {
      case Decide(now) => DecideShrinks(s, d, now, t);
      case _ =>
    }
  }

  lemma DecideShrinks(s: State, d: nat, now: int, t: Topic)
    ensures Shrinks(s.cadence, JudgeDecision(s, d, now).cadence, t)
  {
  }

  /** A new message has not gone out, and nobody has one of its id in hand. */
  lemma DraftShrinks(s: State, d: nat, m: nat, t: Topic)
    requires Inv(s)
    ensures Shrinks(s.cadence, CommitDraft(s, d, m).cadence, t)
  {
    var c, c' := s.cadence, CommitDraft(s, d, m).cadence;
    forall f | f in Busy(c', t) ensures f in Busy(c, t) {
      assert f in c.dispatchers && c'.dispatchers[f] == c.dispatchers[f];
      assert ShapeOk(c.dispatchers[f]) && c.dispatchers[f].key in c.actions;
    }
  }

  // ---- Checking and recording ----

  /** While the lead is not blocked, everything that is out counts. */
  lemma OutIsDelivered(s: State, t: Topic)
    requires BouncesBlock(s) && !Blocked(s.crm, t.lead, t.purpose)
    ensures |Out(s.cadence, t)| == DeliveredCount(s.cadence, t.event, t.lead, t.purpose)
  {
    assert Out(s.cadence, t) == Delivered(s.cadence, t.event, t.lead, t.purpose);
  }

  lemma OneMoreBusy(c: Cadence, c': Cadence, d: nat, p: Phase, t: Topic)
    requires d in c.dispatchers && d !in Busy(c, t) && |Out(c, t)| < Limit(t.purpose)
    requires c'.messages == c.messages && c'.dispatchers == c.dispatchers[d := p]
    ensures Within(c', t)
  {
    assert Busy(c', t) <= Busy(c, t) + {d} && Out(c', t) == Out(c, t);
    SubsetSize(Busy(c', t), Busy(c, t) + {d});
    SubsetSize(Busy(c, t), c.dispatchers.Keys - {d});
    assert c'.dispatchers.Keys == c.dispatchers.Keys;
    assert |c.dispatchers| == |c.dispatchers.Keys| && |c'.dispatchers| == |c'.dispatchers.Keys|;
  }

  /** The policy lets a message go only below the limit, to a lead that is not blocked. */
  lemma GoAheadIsBelowLimit(s: State, m: nat, now: int)
    requires m in s.cadence.messages && s.cadence.messages[m].registration in s.crm.registrations
    requires var x := s.cadence.messages[m];
      && x.event in s.crm.events
      && Judgement(s, x.event, x.lead, x.purpose, x.registration, MeetingFor(s.crm, x.event, x.lead), now).Allowed?
    ensures var x := s.cadence.messages[m];
      !Blocked(s.crm, x.lead, x.purpose) && DeliveredCount(s.cadence, x.event, x.lead, x.purpose) < Limit(x.purpose)
  {
  }

  lemma VerdictShrinks(registrations: map<nat, Registration>, c: Cadence, d: nat, m: nat, v: Verdict, t: Topic)
    requires CadenceOk(registrations, c) && PhaseOf(c, d) == Claimed(SendKey(m)) && !v.Allowed?
    requires m in c.messages && SendKey(m) in c.actions && c.messages[m].origin.Some?
    ensures Shrinks(c, AfterSendVerdict(c, d, m, v), t)
  {
    ClaimedIsNotOut(registrations, c, d, m);
  }

  lemma OtherTopicShrinks(c: Cadence, d: nat, m: nat, t: Topic)
    requires PhaseOf(c, d) == Claimed(SendKey(m)) && SendKey(m) in c.actions
    requires m in c.messages && c.messages[m].origin.Some? && !About(c.messages[m], t)
    ensures Shrinks(c, AfterSendVerdict(c, d, m, Allowed), t)
  {
  }

  lemma CheckKeepsWithin(s: State, d: nat, now: int, t: Topic)
    requires Inv(s) && BouncesBlock(s) && Within(s.cadence, t)
    ensures Within(JudgeSend(s, d, now).cadence, t)
  {
    match PhaseOf(s.cadence, d) {
      case Claimed(SendKey(m)) =>
        if JudgeSend(s, d, now) != s {
          var c, x := s.cadence, s.cadence.messages[m];
          ClaimedIsNotOut(s.crm.registrations, c, d, m);
          var v := Judgement(s, x.event, x.lead, x.purpose, x.registration, MeetingFor(s.crm, x.event, x.lead), now);
          if !v.Allowed? {
            VerdictShrinks(s.crm.registrations, c, d, m, v, t);
            ShrinkingKeepsWithin(c, AfterSendVerdict(c, d, m, v), t);
          } else if About(x, t) {
            GoAheadIsBelowLimit(s, m, now);
            OutIsDelivered(s, t);
            OneMoreBusy(c, AfterSendVerdict(c, d, m, v), d, AfterSendVerdict(c, d, m, v).dispatchers[d], t);
          } else {
            OtherTopicShrinks(c, d, m, t);
            ShrinkingKeepsWithin(c, AfterSendVerdict(c, d, m, v), t);
          }
        }
      case _ =>
    }
  }

  /** A recorded message goes from in hand to out. */
  lemma RecordedKeepsWithin(c: Cadence, c': Cadence, d: nat, m: nat, x: Message, t: Topic)
    requires Within(c, t) && m in c.messages && (About(x, t) <==> About(c.messages[m], t))
    requires d in c.dispatchers && c.dispatchers[d] == Accepted(SendKey(m), m)
    requires c'.messages == c.messages[m := x] && c'.dispatchers == c.dispatchers[d := Idle]
    ensures Within(c', t)
  {
    assert c'.dispatchers.Keys == c.dispatchers.Keys;
    assert |c.dispatchers| == |c.dispatchers.Keys| && |c'.dispatchers| == |c'.dispatchers.Keys|;
    assert Busy(c', t) == Busy(c, t) - {d};
    if About(x, t) {
      assert d in Busy(c, t) && Out(c', t) <= Out(c, t) + {m};
      SubsetSize(Out(c', t), Out(c, t) + {m});
    } else {
      assert Out(c', t) == Out(c, t);
    }
  }

  lemma RecordKeepsWithin(s: State, d: nat, id: string, delivered: bool, t: Topic)
    requires Inv(s) && Within(s.cadence, t)
    ensures Within(CommitSend(s.cadence, d, id, delivered), t)
  {
    var c, c' := s.cadence, CommitSend(s.cadence, d, id, delivered);
    if c' != c {
      var m := PhaseOf(c, d).message;
      assert ShapeOk(c.dispatchers[d]);
      RecordedKeepsWithin(c, c', d, m, c'.messages[m], t);
    }
  }

  // ---- Bounces ----

  lemma WebhookBouncesBlock(s: State, m: nat, receipt: string, kind: WebhookKind, read: MessageStatus)
    requires BouncesBlock(s)
    ensures BouncesBlock(ProcessEmailWebhook(s, m, receipt, kind, read))
  {
  }

  /** Apart from webhooks, no step makes a message bounce. */
  ghost predicate NoNewBounce(c: Cadence, c': Cadence) {
    forall m :: m in c'.messages && c'.messages[m].origin.Some? && c'.messages[m].status.BOUNCED? ==>
      && m in c.messages && c.messages[m].origin.Some? && c.messages[m].status.BOUNCED?
      && c'.messages[m].lead == c.messages[m].lead && c'.messages[m].purpose == c.messages[m].purpose
  }

  lemma BlocksStay(s: State, s': State)
    requires BouncesBlock(s) && NoNewBounce(s.cadence, s'.cadence) && KeepsBlocks(s.crm, s'.crm)
    ensures BouncesBlock(s')
  {
  }

  lemma MovesBounceNothing(s: State, d: nat, move: Move)
    ensures NoNewBounce(s.cadence, ApplyMove(s, d, move).cadence)
  {
    match move {
      case Decide(now) => assert JudgeDecision(s, d, now).cadence.messages == s.cadence.messages;
      case CheckSend(now) => CheckBouncesNothing(s, d, now);
      case _ =>
    }
  }

  lemma CheckBouncesNothing(s: State, d: nat, now: int)
    ensures NoNewBounce(s.cadence, JudgeSend(s, d, now).cadence)
  {
  }

  lemma OthersBounceNothing(s: State, op: Operation)
    requires !op.Webhook?
    ensures NoNewBounce(s.cadence, ApplyApi(s, op).cadence)
  {
    match op {
      case Inbound(r, i, m, id, read) => ReplyBouncesNothing(s, r, i, m, id, read);
      case Erase(l) => ErasureBouncesNothing(s, l);
      case _ => OthersLeaveMessages(s, op);
    }
  }

  lemma ReplyBouncesNothing(
      s: State, r: nat, i: Intent, m: nat, providerId: Option<string>, read: RegistrationStatus)
    ensures NoNewBounce(s.cadence, RecordInbound(s, r, i, m, providerId, read).cadence)
  {
  }

  lemma ErasureBouncesNothing(s: State, l: nat)
    ensures NoNewBounce(s.cadence, DeleteLeadData(s, l).cadence)
  {
  }

  lemma StepKeepsBouncesBlock(s: State, step: Step)
    requires BouncesBlock(s)
    ensures BouncesBlock(Apply(s, step))
  {
    StepIsOnward(s, step);
    match step {
      case Api(op) =>
        if op.Webhook? {
          WebhookBouncesBlock(s, op.m, op.receipt, op.kind, op.statusRead);
        } else {
          OthersBounceNothing(s, op);
          BlocksStay(s, Apply(s, step));
        }
      case Dispatcher(d, move) =>
        MovesBounceNothing(s, d, move);
        BlocksStay(s, Apply(s, step));
    }
  }

  // ---- Runs ----

  lemma StepKeepsWithin(s: State, step: Step, t: Topic)
    requires Inv(s) && BouncesBlock(s) && Within(s.cadence, t)
    ensures Within(Apply(s, step).cadence, t)
  {
    match step {
      case Api(op) =>
        OperationShrinks(s, op, t);
        ShrinkingKeepsWithin(s.cadence, ApplyApi(s, op).cadence, t);
      case Dispatcher(d, move) =>
        match move {
          case CheckSend(now) => CheckKeepsWithin(s, d, now, t);
          case Record(id, delivered) => RecordKeepsWithin(s, d, id, delivered, t);
          case Draft(m) =>
            DraftShrinks(s, d, m, t);
            ShrinkingKeepsWithin(s.cadence, CommitDraft(s, d, m).cadence, t);
          case _ =>
            MoveShrinks(s, d, move, t);
            ShrinkingKeepsWithin(s.cadence, ApplyMove(s, d, move).cadence, t);
        }
    }
  }

  lemma {:induction false} RunKeepsWithin(steps: seq<Step>, t: Topic)
    ensures BouncesBlock(Run(INITIAL, steps)) && Within(Run(INITIAL, steps).cadence, t)
  {
    if steps == [] {
      assert Out(INITIAL.cadence, t) == {} && Busy(INITIAL.cadence, t) == {};
    } else {
      var s := Run(INITIAL, steps[..|steps| - 1]);
      RunKeepsWithin(steps[..|steps| - 1], t);
      RunKeepsInv(steps[..|steps| - 1]);
      StepKeepsBouncesBlock(s, steps[|steps| - 1]);
      StepKeepsWithin(s, steps[|steps| - 1], t);
    }
  }

  /** In every run the sent and delivered messages of a lead about an event and for a purpose stay below the limit
      plus the number of dispatchers, even when a late report turns a bounce back into a delivery; so one
      dispatcher alone never exceeds the limit. */
  lemma LimitHoldsInRuns(steps: seq<Step>, e: nat, l: nat, p: Purpose)
    ensures var c := Run(INITIAL, steps).cadence;
      DeliveredCount(c, e, l, p) < Limit(p) + |c.dispatchers|
  {
    var c, t := Run(INITIAL, steps).cadence, Topic(e, l, p);
    RunKeepsWithin(steps, t);
    SubsetSize(Delivered(c, e, l, p), Out(c, t));
  }
}
