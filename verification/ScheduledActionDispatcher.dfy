/** The dispatcher's batch loop (apps/execution-worker/src/engagement/scheduled-action-dispatcher.ts). Between
    any two of its database transactions anybody else may act; whatever happens, a batch is a run of the
    engagement state machine, judges every action it claims, lets go of it, and reports what it did. */
module ScheduledActionDispatcher {
  import opened CommunicationPolicy
  import opened Engagement
  import opened EngagementCadence
  import opened EngagementTheorems
  import opened EngagementRows

  /** How the call of the mail provider ends: refused, accepted with the answer lost, or accepted. */
  datatype Delivery = Rejected | AnswerLost | AcceptedAs(providerId: string, delivered: bool)

  /** What the outside world answers while one action is processed: whether drafting works and the id of the
      new message, what the provider says, and whether this attempt is the last. */
  datatype Answers = Answers(drafted: bool, message: nat, delivery: Delivery, lastAttempt: bool)

  predicate By(step: Step, d: nat) { step.Dispatcher? && step.d == d }

  /** Steps of API clients, the enrichment worker and other dispatchers. */
  predicate NotBy(steps: seq<Step>, d: nat) { forall i :: 0 <= i < |steps| ==> !By(steps[i], d) }

  // ---- What a dispatcher has done along a run ----

  /** The keys it has tried to claim, in order; claims won, actions judged, actions finished without an error,
      failures and crashes. */
  datatype Tally = Tally(claims: seq<ActionKey>, won: nat, judged: nat, finished: nat, failed: nat, crashed: nat)

  /** One more move, with the dispatcher's phases before and after it. */
  function Count(tally: Tally, p: Phase, move: Move, p': Phase): Tally {
    match move
    case ClaimAction(key) =>
      tally.(claims := tally.claims + [key], won := tally.won + if p.Idle? && !p'.Idle? then 1 else 0)
    case Fail(_) => tally.(failed := tally.failed + 1)
    case Crash => tally.(crashed := tally.crashed + 1)
    case _ =>
      tally.(judged := tally.judged + (if p.Claimed? && (move.Decide? || move.CheckSend?) then 1 else 0),
             finished := tally.finished + (if !p.Idle? && p'.Idle? then 1 else 0))
  }

  ghost function TallyOf(trace: seq<Step>, d: nat): Tally {
    if trace == [] then Tally([], 0, 0, 0, 0, 0)
    else
      var before, last := trace[..|trace| - 1], trace[|trace| - 1];
      if By(last, d)
      then Count(TallyOf(before, d), PhaseAt(before, d), last.move, PhaseAt(trace, d))
      else TallyOf(before, d)
  }

  ghost function PhaseAt(trace: seq<Step>, d: nat): Phase { PhaseOf(Run(INITIAL, trace).cadence, d) }

  lemma {:induction false} OthersAreNotCounted(a: seq<Step>, b: seq<Step>, d: nat)
    requires NotBy(b, d)
    ensures TallyOf(a + b, d) == TallyOf(a, d)
  {
    if b == [] {
      assert a + b == a;
    } else {
      assert (a + b)[..|a + b| - 1] == a + b[..|b| - 1];
      OthersAreNotCounted(a, b[..|b| - 1], d);
    }
  }

  lemma OthersLeavePhase(s: State, step: Step, d: nat)
    requires !By(step, d)
    ensures PhaseOf(Apply(s, step).cadence, d) == PhaseOf(s.cadence, d)
  {
    match step {
      case Api(op) => OperationsMailNothing(s, op);
      case Dispatcher(f, move) => MovesLeaveOthers(s, f, move, d);
    }
  }

  lemma MovesLeaveOthers(s: State, f: nat, move: Move, d: nat)
    requires d != f
    ensures PhaseOf(ApplyMove(s, f, move).cadence, d) == PhaseOf(s.cadence, d)
  {
    match move {
      case Decide(now) => assert PhaseOf(JudgeDecision(s, f, now).cadence, d) == PhaseOf(s.cadence, d);
      case CheckSend(now) => assert PhaseOf(JudgeSend(s, f, now).cadence, d) == PhaseOf(s.cadence, d);
      case Draft(m) => assert PhaseOf(CommitDraft(s, f, m).cadence, d) == PhaseOf(s.cadence, d);
      case _ =>
    }
  }

  /** Nobody else touches the phase of a dispatcher. */
  lemma {:induction false} OthersKeep(s: State, steps: seq<Step>, d: nat)
    requires NotBy(steps, d)
    ensures PhaseOf(Run(s, steps).cadence, d) == PhaseOf(s.cadence, d)
  {
    if steps != [] {
      OthersKeep(s, steps[..|steps| - 1], d);
      OthersLeavePhase(Run(s, steps[..|steps| - 1]), steps[|steps| - 1], d);
    }
  }

  /** What each move can do to the phase of the dispatcher that takes it. */
  predicate PhaseAfter(p: Phase, move: Move, p': Phase) {
    match move
    case ClaimAction(key) => p.Idle? ==> p'.Idle? || p' == Claimed(key)
    case Decide(_) => p.Claimed? ==> p' == p || p'.Idle? || p' == Drafting(p.key)
    case Draft(_) => p.Drafting? ==> p' == p || p'.Idle?
    case CheckSend(_) => p.Claimed? ==> p' == p || p'.Idle? || p'.Sending?
    case Send => p.Sending? ==> p'.Accepted?
    case Record(_, _) => p.Accepted? ==> p' == p || p'.Idle?
    case Fail(_) => p'.Idle?
    case Crash => p'.Idle?
  }

  lemma MovesChangePhase(s: State, d: nat, move: Move)
    requires !PhaseOf(s.cadence, d).Idle? ==> PhaseOf(s.cadence, d).key in s.cadence.actions
    ensures PhaseAfter(PhaseOf(s.cadence, d), move, PhaseOf(ApplyMove(s, d, move).cadence, d))
  {
    match move { case _ => }
  }

  lemma HeldActionExists(s: State, d: nat)
    requires Inv(s)
    ensures !PhaseOf(s.cadence, d).Idle? ==> PhaseOf(s.cadence, d).key in s.cadence.actions
  {
  }

  lemma TurnIsRecorded(trace: seq<Step>, meanwhile: seq<Step>, d: nat, move: Move)
    requires NotBy(meanwhile, d)
    ensures Run(INITIAL, trace + meanwhile) == Run(Run(INITIAL, trace), meanwhile)
    ensures PhaseAt(trace + meanwhile, d) == PhaseAt(trace, d)
    ensures var trace' := trace + meanwhile + [Dispatcher(d, move)];
      && Run(INITIAL, trace') == ApplyMove(Run(INITIAL, trace + meanwhile), d, move)
      && TallyOf(trace', d) == Count(TallyOf(trace, d), PhaseAt(trace, d), move, PhaseAt(trace', d))
  {
    RunAppend(INITIAL, trace, meanwhile);
    OthersKeep(Run(INITIAL, trace), meanwhile, d);
    OthersAreNotCounted(trace, meanwhile, d);
    var trace' := trace + meanwhile + [Dispatcher(d, move)];
    assert trace'[..|trace'| - 1] == trace + meanwhile;
  }

  lemma TurnChangesPhase(trace: seq<Step>, d: nat, move: Move)
    ensures var s := Run(INITIAL, trace);
      PhaseAfter(PhaseOf(s.cadence, d), move, PhaseOf(ApplyMove(s, d, move).cadence, d))
  {
    RunKeepsInv(trace);
    HeldActionExists(Run(INITIAL, trace), d);
    MovesChangePhase(Run(INITIAL, trace), d, move);
  }

  // ---- What is decided ----

  predicate IsPending(c: Cadence, key: ActionKey) { key in c.actions && c.actions[key].status.PENDING? }

  predicate IsCancelled(c: Cadence, key: ActionKey) { key in c.actions && c.actions[key].status.CANCELLED? }

  predicate IsCompleted(c: Cadence, key: ActionKey) { key in c.actions && c.actions[key].status.COMPLETED? }

  /** The action is pending, or was left behind by a dispatcher that is gone. */
  ghost predicate IsFree(c: Cadence, key: ActionKey) {
    && key in c.actions && (c.actions[key].status.PENDING? || c.actions[key].status.DISPATCHING?)
    && forall d :: d in c.dispatchers && !c.dispatchers[d].Idle? ==> c.dispatchers[d].key != key
  }

  /** The message is for the registration of the step and has the step's purpose. */
  predicate WrittenFor(x: Message, key: ActionKey) {
    && key.CadenceKey? && x.registration == key.registration
    && x.purpose == if key.step in {WELCOME, D14, D7, D3, D1} then EVENT_COMMUNICATION else COMMERCIAL_FOLLOW_UP
  }

  /** A decided cadence action waits for the window, is cancelled, or has its message and the action to send it. */
  predicate Decided(c: Cadence, key: ActionKey, m: nat) {
    || IsPending(c, key)
    || IsCancelled(c, key)
    || (IsCompleted(c, key) && IsPending(c, SendKey(m)) && m in c.messages
        && c.messages[m].origin == Some(key) && c.messages[m].status.SCHEDULED? && WrittenFor(c.messages[m], key))
  }

  /** A send that was dealt with waits for the window, has its message suppressed, or has gone out. */
  predicate DealtWith(c: Cadence, m: nat) {
    || IsPending(c, SendKey(m))
    || (IsCancelled(c, SendKey(m)) && m in c.messages && c.messages[m].status.SUPPRESSED?)
    || (IsCompleted(c, SendKey(m)) && m in c.messages && WentOut(c.messages[m].status))
  }

  /** Judging a step on the rows of `s` has left `c'`. */
  ghost predicate StepJudged(s: State, c': Cadence, d: nat, key: ActionKey, now: int) {
    var p := PhaseOf(c', d);
    && (p == Claimed(key) || p == Drafting(key) || (p.Idle? && (IsPending(c', key) || IsCancelled(c', key))))
    && (p == Claimed(key) <==> !CanDecide(s, key))
    && (p.Idle? && IsCancelled(c', key) <==> CanDecide(s, key) && StepObjected(s, key))
    && (p.Idle? && IsPending(c', key) <==>
          CanDecide(s, key) && !StepObjected(s, key) && !StepInHours(s, key, now))
    && (p == Drafting(key) <==> CanDecide(s, key) && !StepObjected(s, key) && StepInHours(s, key, now))
  }

  lemma DecisionIsJudged(s: State, d: nat, key: ActionKey, now: int)
    requires Inv(s) && PhaseOf(s.cadence, d) == Claimed(key) && key.CadenceKey?
    ensures StepJudged(s, ApplyMove(s, d, Decide(now)).cadence, d, key, now)
  {
    HeldActionExists(s, d);
    DecidedFrom(s, JudgeDecision(s, d, now), d, key, now);
  }

  lemma DecidedFrom(s: State, s': State, d: nat, key: ActionKey, now: int)
    requires PhaseOf(s.cadence, d) == Claimed(key) && key.CadenceKey? && key in s.cadence.actions
    requires s' == JudgeDecision(s, d, now)
    ensures StepJudged(s, s'.cadence, d, key, now)
  {
    DecidesExactly(s, d, key, now);
  }

  /** Judging a message on the rows of `s` has left `c'`. */
  ghost predicate MailJudged(s: State, c': Cadence, d: nat, m: nat, now: int) {
    var p := PhaseOf(c', d);
    && (p == Claimed(SendKey(m)) || (p.Idle? && DealtWith(c', m))
        || (p.Sending? && p.key == SendKey(m) && p.message == m))
    && (p == Claimed(SendKey(m)) <==> !CanCheck(s, m))
    && (p.Idle? && IsCancelled(c', SendKey(m)) <==> CanCheck(s, m) && !IsOut(s, m) && MailObjected(s, m))
    && (p.Idle? && IsPending(c', SendKey(m)) <==>
          CanCheck(s, m) && !IsOut(s, m) && !MailObjected(s, m) && !MailInHours(s, m, now))
    && (p.Sending? <==> CanCheck(s, m) && !IsOut(s, m) && !MailObjected(s, m) && MailInHours(s, m, now))
  }

  lemma CheckIsJudged(s: State, d: nat, m: nat, now: int)
    requires Inv(s) && PhaseOf(s.cadence, d) == Claimed(SendKey(m))
    ensures MailJudged(s, ApplyMove(s, d, CheckSend(now)).cadence, d, m, now)
  {
    HeldActionExists(s, d);
    CheckedFrom(s, JudgeSend(s, d, now), d, m, now);
  }

  lemma CheckedFrom(s: State, s': State, d: nat, m: nat, now: int)
    requires PhaseOf(s.cadence, d) == Claimed(SendKey(m)) && SendKey(m) in s.cadence.actions
    requires s' == JudgeSend(s, d, now)
    ensures MailJudged(s, s'.cadence, d, m, now)
  {
    ChecksExactly(s, d, m, now);
  }

  lemma DraftIsStored(s: State, s': State, d: nat, key: ActionKey, m: nat)
    requires PhaseOf(s.cadence, d) == Drafting(key) && key.CadenceKey? && s' == CommitDraft(s, d, m)
    ensures if CanStore(s, key, m) then PhaseOf(s'.cadence, d).Idle? else s' == s
    ensures CanStore(s, key, m) ==> Decided(s'.cadence, key, m) && IsCompleted(s'.cadence, key)
  {
    StoresExactly(s, d, key, m);
  }

  /** The message is recorded with what the provider has said: its id there, and whether it is delivered already. */
  predicate SaysAs(c: Cadence, m: nat, delivery: Delivery)
    requires delivery.AcceptedAs?
  {
    && IsCompleted(c, SendKey(m)) && m in c.messages && c.messages[m].providerId == Some(delivery.providerId)
    && c.messages[m].status == if delivery.delivered then DELIVERED else SENT
  }

  lemma MailIsHandedOver(s: State, d: nat, m: nat)
    requires PhaseOf(s.cadence, d).Sending? && PhaseOf(s.cadence, d).key == SendKey(m)
    requires PhaseOf(s.cadence, d).message == m
    ensures var c := HandOver(s.cadence, d); PhaseOf(c, d) == Accepted(SendKey(m), m) && m in c.emails
  {
    HandsOverExactly(s, d, m, PhaseOf(s.cadence, d).email);
  }

  lemma AcceptanceIsRecorded(c: Cadence, c': Cadence, d: nat, m: nat, id: string, delivered: bool)
    requires PhaseOf(c, d) == Accepted(SendKey(m), m) && c' == CommitSend(c, d, id, delivered)
    ensures if CanRecord(c, m, id) then PhaseOf(c', d).Idle? else c' == c
    ensures CanRecord(c, m, id) ==> DealtWith(c', m) && SaysAs(c', m, AcceptedAs(id, delivered))
  {
    RecordsExactly(c, d, m, id, delivered);
  }

  class ActionDispatcher {
    const d: nat
    /** What others do before this dispatcher's next transaction, by its number. */
    const others: nat -> seq<Step>
    var clock: nat
    var db: State
    /** The run that has led to the present state. */
    ghost var trace: seq<Step>

    constructor (d: nat, others: nat -> seq<Step>, db: State, ghost history: seq<Step>)
      requires db == Run(INITIAL, history) && PhaseOf(db.cadence, d).Idle?
      requires forall n :: NotBy(others(n), d)
      ensures Valid() && Phase().Idle?
      ensures this.d == d && this.others == others && this.db == db && trace == history
    {
      this.d, this.others, this.clock, this.db := d, others, 0, db;
      this.trace := history;
    }

    ghost predicate Valid()
      reads this
    {
      (forall n :: NotBy(others(n), d)) && db == Run(INITIAL, trace)
    }

    function Phase(): Phase
      reads this
    {
      PhaseOf(db.cadence, d)
    }

    ghost function Done(): Tally
      reads this
    {
      TallyOf(trace, d)
    }

    /** What this dispatcher's next transaction finds. */
    twostate function Found(): State
      reads this
    {
      Run(INITIAL, old(trace) + others(old(clock)))
    }

    /** This dispatcher's last step on record. */
    ghost predicate LastMove(move: Move)
      reads this
    {
      trace != [] && trace[|trace| - 1] == Dispatcher(d, move)
    }

    /** The mail is out, but the answer is lost or cannot be recorded. */
    ghost predicate Unrecorded(m: nat, delivery: Delivery)
      reads this
    {
      && Phase() == Accepted(SendKey(m), m) && m in db.cadence.emails
      && (delivery.AcceptedAs? ==>
            && LastMove(Record(delivery.providerId, delivery.delivered))
            && !CanRecord(db.cadence, m, delivery.providerId))
    }

    /** One transaction of this dispatcher, in state `t`, after whatever the others do first. */
    method Take(move: Move) returns (ghost t: State)
      requires Valid()
      modifies this
      ensures Valid() && old(trace) <= trace && LastMove(move)
      ensures t == Found() && Inv(t)
      ensures PhaseOf(t.cadence, d) == old(Phase()) && db == ApplyMove(t, d, move)
      ensures PhaseAfter(old(Phase()), move, Phase())
      ensures Done() == Count(old(Done()), old(Phase()), move, Phase())
    {
      var meanwhile := others(clock);
      clock := clock + 1;
      TurnIsRecorded(trace, meanwhile, d, move);
      TurnChangesPhase(trace + meanwhile, d, move);
      RunKeepsInv(trace + meanwhile);
      t := Run(INITIAL, trace + meanwhile);
      db, trace := ApplyMove(Run(db, meanwhile), d, move), trace + meanwhile + [Dispatcher(d, move)];
    }

    /** Decides a claimed cadence action; `ok` means that it did not throw, and then the action is decided. It
        throws only when its context is missing, the draft fails, or the draft cannot be stored. In terms of the rows
        that the first transaction finds: the action is cancelled exactly when some ground of refusal holds, put back
        exactly when none holds but the hour is outside the window, and drafted exactly when none holds inside. */
    method ProcessAgentDecision(key: ActionKey, now: int, a: Answers) returns (ok: bool)
      requires Valid() && Phase() == Claimed(key) && key.CadenceKey?
      modifies this
      ensures Valid() && old(trace) <= trace
      ensures if ok then Phase().Idle? && Decided(db.cadence, key, a.message)
              else !Phase().Idle? && Phase().key == key
      ensures !ok ==>
        || (Phase().Claimed? && LastMove(Decide(now)))
        || (Phase().Drafting? && (a.drafted ==> LastMove(Draft(a.message)) && !CanStore(db, key, a.message)))
      ensures CanDecide(Found(), key) || !ok
      ensures ok && IsCancelled(db.cadence, key) <==> CanDecide(Found(), key) && StepObjected(Found(), key)
      ensures ok && IsPending(db.cadence, key) <==>
        CanDecide(Found(), key) && !StepObjected(Found(), key) && !StepInHours(Found(), key, now)
      ensures Phase().Drafting? || (ok && IsCompleted(db.cadence, key)) <==>
        CanDecide(Found(), key) && !StepObjected(Found(), key) && StepInHours(Found(), key, now)
      ensures Done() == old(Done()).(judged := old(Done()).judged + 1,
                                     finished := old(Done()).finished + if ok then 1 else 0)
    {
      JudgeStep(key, now);
      if !Phase().Drafting? || !a.drafted {
        return Phase().Idle?;
      }
      ok := StoreDraft(key, a.message);
    }

    /** The first transaction: judge the step on the rows there are. */
    method JudgeStep(key: ActionKey, now: int)
      requires Valid() && Phase() == Claimed(key) && key.CadenceKey?
      modifies this
      ensures Valid() && old(trace) <= trace && LastMove(Decide(now))
      ensures StepJudged(Found(), db.cadence, d, key, now)
      ensures Done() == old(Done()).(judged := old(Done()).judged + 1,
                                     finished := old(Done()).finished + if Phase().Idle? then 1 else 0)
    {
      ghost var t := Take(Decide(now));
      DecisionIsJudged(t, d, key, now);
    }

    /** The second one: store the draft. */
    method StoreDraft(key: ActionKey, m: nat) returns (ok: bool)
      requires Valid() && Phase() == Drafting(key) && key.CadenceKey?
      modifies this
      ensures Valid() && old(trace) <= trace && LastMove(Draft(m))
      ensures if ok then Phase().Idle? && Decided(db.cadence, key, m) && IsCompleted(db.cadence, key)
              else Phase() == Drafting(key) && !CanStore(db, key, m)
      ensures Done() == old(Done()).(finished := old(Done()).finished + if ok then 1 else 0)
    {
      ghost var t := Take(Draft(m));
      DraftIsStored(t, db, d, key, m);
      return Phase().Idle?;
    }

    /** Sends a claimed message; it may go out although the provider's answer is lost. `ok` means that it did not
        throw, and then the send is dealt with. It throws only when its context is missing, the provider does
        not answer with an acceptance, or the acceptance cannot be recorded, when the message is out. In terms of the
        rows that the first transaction finds: the message is suppressed exactly when it is not out and some ground
        holds, its send is put back exactly when none holds but the hour is outside the window, and the provider is
        asked exactly when none holds inside; what is recorded is what the provider has said. */
    method ProcessMessageSend(m: nat, now: int, a: Answers) returns (ok: bool)
      requires Valid() && Phase() == Claimed(SendKey(m))
      modifies this
      ensures Valid() && old(trace) <= trace
      ensures if ok then Phase().Idle? && DealtWith(db.cadence, m) else !Phase().Idle? && Phase().key == SendKey(m)
      ensures !ok ==>
        || (Phase().Claimed? && LastMove(CheckSend(now)))
        || (Phase().Sending? && a.delivery.Rejected?)
        || (!a.delivery.Rejected? && Unrecorded(m, a.delivery))
      ensures CanCheck(Found(), m) || !ok
      ensures ok && IsCancelled(db.cadence, SendKey(m)) <==>
        CanCheck(Found(), m) && !IsOut(Found(), m) && MailObjected(Found(), m)
      ensures ok && IsPending(db.cadence, SendKey(m)) <==>
        CanCheck(Found(), m) && !IsOut(Found(), m) && !MailObjected(Found(), m) && !MailInHours(Found(), m, now)
      ensures Phase().Sending? || Phase().Accepted? || (ok && !LastMove(CheckSend(now))) <==>
        CanCheck(Found(), m) && !IsOut(Found(), m) && !MailObjected(Found(), m) && MailInHours(Found(), m, now)
      ensures ok && !LastMove(CheckSend(now)) ==> a.delivery.AcceptedAs? && SaysAs(db.cadence, m, a.delivery)
      ensures Done() == old(Done()).(judged := old(Done()).judged + 1,
                                     finished := old(Done()).finished + if ok then 1 else 0)
    {
      JudgeMail(m, now);
      if !Phase().Sending? || a.delivery.Rejected? {
        return Phase().Idle?;
      }
      ok := HandOverAndRecord(m, a.delivery);
    }

    /** The first transaction: judge the message on the rows there are. */
    method JudgeMail(m: nat, now: int)
      requires Valid() && Phase() == Claimed(SendKey(m))
      modifies this
      ensures Valid() && old(trace) <= trace && LastMove(CheckSend(now))
      ensures MailJudged(Found(), db.cadence, d, m, now)
      ensures Done() == old(Done()).(judged := old(Done()).judged + 1,
                                     finished := old(Done()).finished + if Phase().Idle? then 1 else 0)
    {
      ghost var t := Take(CheckSend(now));
      CheckIsJudged(t, d, m, now);
    }

    method HandOverAndRecord(m: nat, delivery: Delivery) returns (ok: bool)
      requires Valid() && Phase().Sending? && Phase().key == SendKey(m) && Phase().message == m && !delivery.Rejected?
      modifies this
      ensures Valid() && old(trace) <= trace
      ensures ok ==> Phase().Idle? && DealtWith(db.cadence, m)
      ensures !ok ==> Unrecorded(m, delivery)
      ensures delivery.AcceptedAs? ==> LastMove(Record(delivery.providerId, delivery.delivered))
      ensures ok ==> delivery.AcceptedAs? && SaysAs(db.cadence, m, delivery)
      ensures Done() == old(Done()).(finished := old(Done()).finished + if ok then 1 else 0)
    {
      HandMailOver(m);
      if delivery.AnswerLost? {
        return false;
      }
      ok := RecordAnswer(m, delivery);
    }

    method HandMailOver(m: nat)
      requires Valid() && Phase().Sending? && Phase().key == SendKey(m) && Phase().message == m
      modifies this
      ensures Valid() && old(trace) <= trace && Phase() == Accepted(SendKey(m), m) && m in db.cadence.emails
      ensures Done() == old(Done())
    {
      ghost var t := Take(Send);
      MailIsHandedOver(t, d, m);
    }

    method RecordAnswer(m: nat, delivery: Delivery) returns (ok: bool)
      requires Valid() && Phase() == Accepted(SendKey(m), m) && delivery.AcceptedAs?
      modifies this
      ensures Valid() && old(trace) <= trace && LastMove(Record(delivery.providerId, delivery.delivered))
      ensures if ok then Phase().Idle? && DealtWith(db.cadence, m) && SaysAs(db.cadence, m, delivery)
              else Unrecorded(m, delivery)
      ensures Done() == old(Done()).(finished := old(Done()).finished + if ok then 1 else 0)
    {
      ghost var t := Take(Record(delivery.providerId, delivery.delivered));
      AcceptanceIsRecorded(t.cadence, db.cadence, d, m, delivery.providerId, delivery.delivered);
      AcceptedIsMailed(trace, d);
      return Phase().Idle?;
    }

    /** Processes a claimed action by its type. */
    method ProcessScheduledAction(key: ActionKey, now: int, a: Answers) returns (ok: bool)
      requires Valid() && Phase() == Claimed(key)
      modifies this
      ensures Valid() && old(trace) <= trace && (ok <==> Phase().Idle?) && (!ok ==> Phase().key == key)
      ensures ok ==> if key.SendKey? then DealtWith(db.cadence, key.message) else Decided(db.cadence, key, a.message)
      ensures Done() == old(Done()).(judged := old(Done()).judged + 1,
                                     finished := old(Done()).finished + if ok then 1 else 0)
    {
      if key.SendKey? {
        ok := ProcessMessageSend(key.message, now, a);
      } else {
        ok := ProcessAgentDecision(key, now, a);
      }
    }

    /** Claims a candidate and processes it: `claimed` says whether the claim was won, `ok` how it went. */
    method DispatchOne(key: ActionKey, now: int, a: Answers) returns (claimed: bool, ok: bool)
      requires Valid() && Phase().Idle?
      modifies this
      ensures Valid() && Phase().Idle? && old(trace) <= trace
      ensures claimed && !ok ==>
        key in db.cadence.actions && db.cadence.actions[key].status == if a.lastAttempt then FAILED else PENDING
      ensures Done() == Batch(old(Done()), [key], if claimed && ok then 1 else 0, if claimed && !ok then 1 else 0)
    {
      claimed := TryClaim(key);
      if !claimed {
        return false, false;
      }
      ok := ProcessScheduledAction(key, now, a);
      if !ok {
        PutOff(a.lastAttempt);
      }
    }

    method TryClaim(key: ActionKey) returns (claimed: bool)
      requires Valid() && Phase().Idle?
      modifies this
      ensures Valid() && old(trace) <= trace && Phase() == if claimed then Claimed(key) else Idle
      ensures claimed <==> IsFree(Found().cadence, key)
      ensures claimed ==> key in db.cadence.actions && db.cadence.actions[key].status.DISPATCHING?
      ensures Done() == old(Done()).(claims := old(Done()).claims + [key],
        won := old(Done()).won + if claimed then 1 else 0)
    {
      ghost var t := Take(ClaimAction(key));
      return !Phase().Idle?;
    }

    /** After an error: try again later, or fail for good. */
    method PutOff(lastAttempt: bool)
      requires Valid()
      modifies this
      ensures Valid() && old(trace) <= trace && Phase().Idle?
      ensures !old(Phase()).Idle? ==>
        var key := old(Phase()).key;
        key in db.cadence.actions && db.cadence.actions[key].status == if lastAttempt then FAILED else PENDING
      ensures Done() == old(Done()).(failed := old(Done()).failed + 1)
    {
      ghost var t := Take(Fail(lastAttempt));
      HeldActionExists(t, d);
    }

    /** A batch tries to claim every candidate once, judges every action it wins, finishes or fails it, and
        reports just that; it never gives up an action otherwise, keeps hold of nothing, and what it did,
        between the steps of the others, is a run. */
    method DispatchDueScheduledActions(candidates: seq<ActionKey>, now: int, answers: seq<Answers>)
        returns (fetched: nat, completed: nat, failed: nat)
      requires Valid() && Phase().Idle? && |answers| == |candidates|
      modifies this
      ensures Valid() && Phase().Idle? && old(trace) <= trace
      ensures fetched == |candidates| && completed + failed <= fetched
      ensures Done() == Batch(old(Done()), candidates, completed, failed)
    {
      fetched, completed, failed := |candidates|, 0, 0;
      for i := 0 to |candidates|
        invariant Valid() && Phase().Idle? && old(trace) <= trace && completed + failed <= i
        invariant Done() == Batch(old(Done()), candidates[..i], completed, failed)
      {
        assert candidates[..i + 1] == candidates[..i] + [candidates[i]];
        var claimed, ok := DispatchOne(candidates[i], now, answers[i]);
        if claimed {
          if ok {
            completed := completed + 1;
          } else {
            failed := failed + 1;
          }
        }
      }
      assert candidates[..|candidates|] == candidates;
    }
  }

  /** What a batch adds: a claim for every candidate, in order; every action won is judged once, and finished or
      failed. */
  function Batch(tally: Tally, candidates: seq<ActionKey>, completed: nat, failed: nat): Tally {
    Tally(tally.claims + candidates, tally.won + completed + failed, tally.judged + completed + failed,
          tally.finished + completed, tally.failed + failed, tally.crashed)
  }

  lemma AcceptedIsMailed(trace: seq<Step>, d: nat)
    ensures PhaseAt(trace, d).Accepted? ==> PhaseAt(trace, d).message in Run(INITIAL, trace).cadence.emails
  {
    RunKeepsInv(trace);
  }
}
