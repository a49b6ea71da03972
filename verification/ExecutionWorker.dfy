/** One worker handling one delivery (handleDelivery, processWorkflowExecution and failWorkflowExecution in
    apps/execution-worker/src/index.ts). Between any two of its transactions anybody else may act; whatever
    happens, handling a delivery is a run of the execution protocol, lets go of the command, and does so in
    the way that the answers of the outside world call for. */
module ExecutionWorker {
  import opened ExecutionProtocol
  import opened ExecutionInvariants
  import opened ExecutionTheorems

  /** How a node fares: its completed event is dispatched or not, or its executor throws. */
  datatype NodeEnd = NodeSucceeds(dispatched: bool) | NodeThrows(retryable: bool)

  /** `begunDispatched` says whether its started event is dispatched. */
  datatype NodeRun = NodeRun(begunDispatched: bool, end: NodeEnd)

  /** What happens before the first node, apart from parsing the definition. */
  datatype Setup = Prepared | SetupThrows(retryable: bool)

  /** What the outside world answers during one delivery: whether the dispatches awaited at each point succeed,
      how the nodes fare by number, whether a failure can be recorded, and whether dead-lettering works. */
  datatype Answers = Answers(
    loadOk: bool, startOk: bool, setup: Setup, nodes: nat -> NodeRun, completeOk: bool, recorded: bool, buried: bool)

  predicate GoodNode(run: NodeRun) { run.begunDispatched && run.end == NodeSucceeds(true) }

  /** Whether the error of a node that is not good is worth a retry: only what its executor throws may not be. */
  predicate NodeRetryable(run: NodeRun) { run.begunDispatched && run.end.NodeThrows? ==> run.end.retryable }

  datatype Trouble = NoTrouble | Throws(retryable: bool)

  /** What the nodes from `i` on throw: the error of the first that is not good. */
  function NodesTrouble(nodes: nat -> NodeRun, i: nat, n: nat): Trouble
    decreases n - i
  {
    if i >= n then NoTrouble
    else if GoodNode(nodes(i)) then NodesTrouble(nodes, i + 1, n)
    else Throws(NodeRetryable(nodes(i)))
  }

  /** What executing the nodes of a plan throws. */
  function PlanTrouble(a: Answers, plan: Plan): Trouble {
    if a.setup.SetupThrows? then Throws(a.setup.retryable)
    else if plan.Invalid? then Throws(false)
    else NodesTrouble(a.nodes, 0, |plan.ids|)
  }

  /** The answers and the plan call for an error of this kind: a dispatch before the nodes fails, the nodes throw
      it, or they do not throw and the dispatch after them fails. */
  predicate ErrsFor(a: Answers, plan: Plan, retryable: bool) {
    || (retryable && (!a.loadOk || !a.startOk))
    || PlanTrouble(a, plan) == Throws(retryable)
    || (retryable && PlanTrouble(a, plan).NoTrouble? && !a.completeOk)
  }

  /** The dispatches around the nodes succeed. */
  predicate Smooth(a: Answers) { a.loadOk && a.startOk && a.completeOk }

  predicate KnownPlan(s: State, x: string) { Knows(s, x) && PlanOf(s, x).Nodes? }

  datatype Ending = NotDelivered | WasProcessed | WasRepublished | WasDeadLettered | WasPutBack

  predicate By(step: Step, w: nat) { step.Worker? && step.w == w }

  /** Steps of clients, other workers, dispatches and timeline consumers. */
  predicate NotBy(steps: seq<Step>, w: nat) { forall i :: 0 <= i < |steps| ==> !By(steps[i], w) }

  // ---- Nobody else touches a held command ----

  /** Only worker `f` changes, with the command it holds and commands that are queued. */
  ghost predicate OnlyOwn(s: State, s': State, f: nat) {
    && (forall v :: v != f ==> PhaseOf(s', v) == PhaseOf(s, v))
    && (forall c :: (c in s.commands && !s.commands[c].at.Queued?
                     && !(!PhaseOf(s, f).Idle? && PhaseOf(s, f).c == c)) ==>
          c in s'.commands && s'.commands[c] == s.commands[c])
  }

  predicate SameHands(s: State, t: State) { t.workers == s.workers && t.commands == s.commands }

  predicate Holds(s: State, w: nat, c: nat) { !PhaseOf(s, w).Idle? && PhaseOf(s, w).c == c && c in s.commands }

  lemma MoveIsOwn(s: State, t: State, w: nat, p: Phase)
    requires SameHands(s, t)
    ensures OnlyOwn(s, Move(t, w, p), w)
  {
  }

  lemma FinishIsOwn(s: State, t: State, w: nat, c: nat, ok: bool)
    requires SameHands(s, t) && Holds(s, w, c)
    ensures OnlyOwn(s, Finish(t, w, c, ok), w)
  {
  }

  lemma StartIsOwn(s: State, w: nat, c: nat, rows: map<string, Row>, ok: bool)
    requires Holds(s, w, c)
    ensures OnlyOwn(s, StartWith(s, w, c, rows, ok), w)
  {
    var x := s.commands[c].executionId;
    MoveIsOwn(s, Persist(s.(executions := s.executions[x := RUNNING]), rows), w, Entered(c, ok));
    MoveIsOwn(s, s, w, Entered(c, true));
    FinishIsOwn(s, s, w, c, ok);
  }

  lemma CompleteIsOwn(s: State, w: nat, c: nat, rows: map<string, Row>, ok: bool)
    requires Holds(s, w, c)
    ensures OnlyOwn(s, CompleteWith(s, w, c, rows, ok), w)
  {
    var x := s.commands[c].executionId;
    FinishIsOwn(s, Persist(s.(executions := s.executions[x := SUCCEEDED]), rows), w, c, ok);
    FinishIsOwn(s, s, w, c, ok);
    MoveIsOwn(s, s, w, Erring(c, true));
  }

  lemma FailureIsOwn(s: State, w: nat, c: nat, rows: map<string, Row>)
    requires Holds(s, w, c)
    ensures OnlyOwn(s, FailWith(s, w, c, rows), w)
  {
  }

  lemma GuardedIsOwn(s: State, w: nat, action: Action)
    requires Guarded(action)
    ensures OnlyOwn(s, ApplyWorker(s, w, action), w)
  {
    var p := PhaseOf(s, w);
    if !p.Idle? && p.c in s.commands {
      match action {
        case Start(ok) => StartIsOwn(s, w, p.c, RowsAfter(s, w, action), ok);
        case Complete(ok) => CompleteIsOwn(s, w, p.c, RowsAfter(s, w, action), ok);
        case RecordFailure => FailureIsOwn(s, w, p.c, RowsAfter(s, w, action));
      }
    }
  }

  lemma LettingGoIsOwn(s: State, w: nat, action: Action)
    requires LetsGo(action)
    ensures OnlyOwn(s, ApplyWorker(s, w, action), w)
  {
  }

  lemma LoadIsOwn(s: State, w: nat, ok: bool)
    ensures OnlyOwn(s, ApplyLoad(s, w, ok), w)
  {
  }

  lemma NodeIsOwn(s: State, w: nat, kind: Kind, ok: bool)
    requires IsNodeKind(kind)
    ensures OnlyOwn(s, ApplyNode(s, w, kind, ok), w)
  {
  }

  lemma RetryIsOwn(s: State, w: nat)
    requires Numbered(s.commands, s.nextCommand)
    ensures OnlyOwn(s, ApplyRetry(s, w), w)
  {
  }

  lemma ActionIsOwn(s: State, w: nat, action: Action)
    requires Numbered(s.commands, s.nextCommand)
    ensures OnlyOwn(s, ApplyWorker(s, w, action), w)
  {
    if Guarded(action) {
      GuardedIsOwn(s, w, action);
    } else if LetsGo(action) {
      LettingGoIsOwn(s, w, action);
    } else {
      match action {
        case BeginNode => NodeIsOwn(s, w, NodeStarted, true);
        case EndNode(ok) => NodeIsOwn(s, w, NodeCompleted, ok);
        case FailNode => NodeIsOwn(s, w, NodeFailed, true);
        case Load(ok) => LoadIsOwn(s, w, ok);
        case Retry => RetryIsOwn(s, w);
        case _ =>
      }
    }
  }

  /** While a worker holds a command, nobody else changes the worker's phase or the command. */
  ghost predicate SameHold(s: State, s': State, w: nat) {
    && PhaseOf(s', w) == PhaseOf(s, w)
    && (!PhaseOf(s, w).Idle? ==>
          && PhaseOf(s, w).c in s.commands && PhaseOf(s, w).c in s'.commands
          && s'.commands[PhaseOf(s, w).c] == s.commands[PhaseOf(s, w).c])
  }

  /** A worker's command says that it is held by that worker, so two workers never hold the same. */
  predicate HoldsOwn(s: State, w: nat) {
    !PhaseOf(s, w).Idle? ==> PhaseOf(s, w).c in s.commands && s.commands[PhaseOf(s, w).c].at == Held(w)
  }

  lemma EveryoneHoldsOwn(s: State, w: nat)
    requires Inv(s)
    ensures HoldsOwn(s, w)
  {
    if !PhaseOf(s, w).Idle? { HolderFacts(s, w); }
  }

  lemma OtherWorkersLeaveHold(s: State, f: nat, action: Action, w: nat)
    requires f != w && HoldsOwn(s, w) && HoldsOwn(s, f) && Numbered(s.commands, s.nextCommand)
    ensures SameHold(s, ApplyWorker(s, f, action), w)
  {
    ActionIsOwn(s, f, action);
  }

  lemma StepLeavesHold(s: State, step: Step, w: nat)
    requires !By(step, w) && HoldsOwn(s, w) && (step.Worker? ==> HoldsOwn(s, step.w))
    requires Numbered(s.commands, s.nextCommand)
    ensures SameHold(s, Apply(s, step), w)
  {
    match step {
      case Worker(f, action) => OtherWorkersLeaveHold(s, f, action, w);
      case Delivery(transfer) => TransferLeavesWork(s, transfer);
      case _ =>
    }
  }

  lemma OthersLeaveHold(s: State, step: Step, w: nat)
    requires Inv(s) && !By(step, w)
    ensures SameHold(s, Apply(s, step), w)
  {
    EveryoneHoldsOwn(s, w);
    if step.Worker? { EveryoneHoldsOwn(s, step.w); }
    StepLeavesHold(s, step, w);
  }

  lemma {:induction false} OthersKeep(s: State, steps: seq<Step>, w: nat)
    requires Inv(s) && NotBy(steps, w)
    ensures Inv(Run(s, steps)) && SameHold(s, Run(s, steps), w)
  {
    if steps == [] {
      EveryoneHoldsOwn(s, w);
    } else {
      var before := Run(s, steps[..|steps| - 1]);
      OthersKeep(s, steps[..|steps| - 1], w);
      StepKeepsInv(before, steps[|steps| - 1]);
      OthersLeaveHold(before, steps[|steps| - 1], w);
    }
  }

  lemma {:induction false} RunAppend(s: State, a: seq<Step>, b: seq<Step>)
    ensures Run(s, a + b) == Run(Run(s, a), b)
  {
    if b == [] {
      assert a + b == a;
    } else {
      assert (a + b)[..|a + b| - 1] == a + b[..|b| - 1];
      RunAppend(s, a, b[..|b| - 1]);
    }
  }

  // ---- Executions stay known, with their plans, and rows stay ----

  ghost predicate Remembers(s: State, s': State) {
    && s.outbox.Keys <= s'.outbox.Keys
    && forall x :: Knows(s, x) ==> Knows(s', x) && PlanOf(s', x) == PlanOf(s, x)
  }

  lemma WorkerKeepsPlans(s: State, w: nat, action: Action)
    ensures ApplyWorker(s, w, action).plans == s.plans
    ensures ApplyWorker(s, w, action).executions.Keys == s.executions.Keys
  {
    var p := PhaseOf(s, w);
    if Guarded(action) && !p.Idle? && p.c in s.commands {
      match action {
        case Start(ok) => StartKeepsPlans(s, w, p.c, RowsAfter(s, w, action), ok);
        case Complete(ok) => CompleteKeepsPlans(s, w, p.c, RowsAfter(s, w, action), ok);
        case RecordFailure => FailureKeepsPlans(s, w, p.c, RowsAfter(s, w, action));
      }
    } else if !Writes(action) {
      QuietActionsLeaveRows(s, w, action);
    }
  }

  lemma StartKeepsPlans(s: State, w: nat, c: nat, rows: map<string, Row>, ok: bool)
    requires c in s.commands
    ensures StartWith(s, w, c, rows, ok).plans == s.plans
    ensures StartWith(s, w, c, rows, ok).executions.Keys == s.executions.Keys
  {
    var x := s.commands[c].executionId;
    FinishLeavesRows(s, w, c, ok);
    MoveRemembers(Persist(s.(executions := s.executions[x := RUNNING]), rows), w, Entered(c, ok));
    MoveRemembers(s, w, Entered(c, true));
  }

  lemma CompleteKeepsPlans(s: State, w: nat, c: nat, rows: map<string, Row>, ok: bool)
    requires c in s.commands
    ensures CompleteWith(s, w, c, rows, ok).plans == s.plans
    ensures CompleteWith(s, w, c, rows, ok).executions.Keys == s.executions.Keys
  {
    var x := s.commands[c].executionId;
    FinishLeavesRows(s, w, c, ok);
    FinishLeavesRows(Persist(s.(executions := s.executions[x := SUCCEEDED]), rows), w, c, ok);
  }

  lemma FailureKeepsPlans(s: State, w: nat, c: nat, rows: map<string, Row>)
    requires c in s.commands
    ensures FailWith(s, w, c, rows).plans == s.plans
    ensures FailWith(s, w, c, rows).executions.Keys == s.executions.Keys
  {
    var x := s.commands[c].executionId;
    MoveRemembers(Persist(s.(executions := s.executions[x := ExecutionStatus.FAILED]), rows), w, Settled(c));
    MoveRemembers(s, w, Settled(c));
  }

  lemma MoveRemembers(s: State, w: nat, p: Phase)
    ensures Move(s, w, p).plans == s.plans && Move(s, w, p).executions == s.executions
  {
  }

  lemma StepRemembers(s: State, step: Step)
    ensures Remembers(s, Apply(s, step))
  {
    match step {
      case Worker(w, action) =>
        WorkerKeepsPlans(s, w, action);
        WorkerPersists(s, w, action);
      case Delivery(transfer) =>
        TransferLeavesWork(s, transfer);
        TransferKeepsEvents(s, transfer);
      case _ =>
    }
  }

  lemma {:induction false} RunRemembers(s: State, steps: seq<Step>)
    ensures Remembers(s, Run(s, steps))
  {
    if steps != [] {
      RunRemembers(s, steps[..|steps| - 1]);
      StepRemembers(Run(s, steps[..|steps| - 1]), steps[|steps| - 1]);
    }
  }

  // ---- What an action does to the worker and its command ----

  predicate Keeps(p: Phase, k: Command, p': Phase, k': Command) { !p.Idle? && !p'.Idle? && p'.c == p.c && k' == k }

  predicate Lets(p': Phase, k: Command, k': Command, at: Location) { p'.Idle? && k' == k.(at := at) }

  predicate AfterLoad(p: Phase, k: Command, ok: bool, p': Phase, k': Command, known: bool) {
    p.Fetched? ==>
      || Lets(p', k, k', Processed)
      || (Keeps(p, k, p', k') && known && p'.Seen? && (p'.status.PENDING? || p'.status.RUNNING?))
      || (k' == k && known && !ok && p' == Erring(p.c, true))
      || (k' == k && !known && p' == Erring(p.c, false))
  }

  predicate AfterEntry(p: Phase, k: Command, ok: bool, p': Phase, k': Command)
    requires !p.Idle?
  {
    || Lets(p', k, k', Processed)
    || (k' == k && p' == Executing(p.c, 0, false))
    || (k' == k && !ok && p' == Erring(p.c, true))
  }

  predicate AfterNode(p: Phase, k: Command, kind: Kind, ok: bool, p': Phase, k': Command, plan: Plan) {
    p.Executing? && p.begun != kind.NodeStarted? && plan.Nodes? && p.done < |plan.ids| ==>
      k' == k && p' == NodePhase(p.c, p.done, kind, ok)
  }

  /** What each action does to the worker that takes it and the command it holds; `known` and `plan` are about
      the execution of that command. */
  predicate After(p: Phase, k: Command, action: Action, p': Phase, k': Command, known: bool, plan: Plan)
    requires !p.Idle?
  {
    match action
    case Deliver(_) => true
    case Load(ok) => AfterLoad(p, k, ok, p', k', known)
    case Start(ok) => p == Seen(p.c, PENDING) ==> AfterEntry(p, k, ok, p', k')
    case Restate(ok) => p == Seen(p.c, RUNNING) ==> AfterEntry(p, k, ok, p', k')
    case BeginNode => AfterNode(p, k, NodeStarted, true, p', k', plan)
    case EndNode(ok) => AfterNode(p, k, NodeCompleted, ok, p', k', plan)
    case FailNode => AfterNode(p, k, NodeFailed, true, p', k', plan)
    case Raise(retryable) =>
      p.Fetched? || p.Seen? || p.Executing? ==> p' == Erring(p.c, retryable) && k' == k
    case Complete(ok) =>
      p.Executing? && !p.begun && Done(plan, p.done) ==>
        Lets(p', k, k', Processed) || (k' == k && !ok && p' == Erring(p.c, true))
    case Retry =>
      p.Erring? && Retries(p.retryable, k.attempt) ==> p'.Copied? && p'.c == p.c && k' == k
    case AckRetry => p.Copied? ==> Lets(p', k, k', Superseded(p.copy))
    case RecordFailure =>
      p.Erring? && !Retries(p.retryable, k.attempt) ==>
        if known then k' == k && p' == Settled(p.c) else Lets(p', k, k', Queued)
    case DeadLetter => p.Settled? ==> Lets(p', k, k', DeadLettered)
    case Nack =>
      p.Settled? || (p.Erring? && !Retries(p.retryable, k.attempt)) ==> Lets(p', k, k', Queued)
    case Crash => Lets(p', k, k', Queued)
  }

  function NodeKind(action: Action): Kind
    requires WritesNode(action)
  {
    if action.BeginNode? then NodeStarted else if action.FailNode? then NodeFailed else NodeCompleted
  }

  /** The execution has the row of this event of its node number `i`. */
  ghost predicate Noted(s: State, x: string, i: nat, kind: Kind) {
    KnownPlan(s, x) && i < |PlanOf(s, x).ids| && NodeRow(s.outbox, kind, x, PlanOf(s, x).ids[i])
  }

  /** An action of a node leaves the row of its event. */
  ghost predicate Notes(p: Phase, k: Command, action: Action, s': State) {
    WritesNode(action) && p.Executing? && p.begun == !action.BeginNode?
    && KnownPlan(s', k.executionId) && p.done < |PlanOf(s', k.executionId).ids| ==>
      Noted(s', k.executionId, p.done, NodeKind(action))
  }

  lemma NodeIsNoted(s: State, w: nat, action: Action)
    ensures var p := PhaseOf(s, w);
      !p.Idle? && p.c in s.commands ==> Notes(p, s.commands[p.c], action, ApplyWorker(s, w, action))
  {
    if WritesNode(action) {
      NodePersists(s, w, action);
      assert ApplyWorker(s, w, action).plans == s.plans;
    }
  }

  /** The effect of an action, with what is known about the execution afterwards. */
  ghost predicate Effect(p: Phase, k: Command, action: Action, w: nat, s': State) {
    !p.Idle? ==>
      && p.c in s'.commands
      && After(p, k, action, PhaseOf(s', w), s'.commands[p.c], Knows(s', k.executionId), PlanOf(s', k.executionId))
  }

  ghost predicate EffectOf(s: State, w: nat, action: Action) {
    var p := PhaseOf(s, w);
    !p.Idle? && p.c in s.commands ==> Effect(p, s.commands[p.c], action, w, ApplyWorker(s, w, action))
  }

  lemma LoadEffect(s: State, w: nat, ok: bool)
    ensures EffectOf(s, w, Load(ok))
  {
  }

  lemma StartEffect(s: State, w: nat, c: nat, rows: map<string, Row>, ok: bool)
    requires PhaseOf(s, w) == Seen(c, PENDING) && c in s.commands
    ensures var s' := StartWith(s, w, c, rows, ok);
      c in s'.commands && AfterEntry(PhaseOf(s, w), s.commands[c], ok, PhaseOf(s', w), s'.commands[c])
  {
    var x := s.commands[c].executionId;
    MoveEffect(Persist(s.(executions := s.executions[x := RUNNING]), rows), w, Entered(c, ok));
    MoveEffect(s, w, Entered(c, true));
    FinishEffect(s, w, c, ok);
  }

  lemma MoveEffect(s: State, w: nat, p: Phase)
    ensures PhaseOf(Move(s, w, p), w) == p && Move(s, w, p).commands == s.commands
  {
  }

  lemma FinishEffect(s: State, w: nat, c: nat, ok: bool)
    requires c in s.commands
    ensures var s' := Finish(s, w, c, ok);
      && c in s'.commands
      && (if ok then Lets(PhaseOf(s', w), s.commands[c], s'.commands[c], Processed)
          else s'.commands[c] == s.commands[c] && PhaseOf(s', w) == Erring(c, true))
  {
  }

  lemma CompleteEffect(s: State, w: nat, c: nat, rows: map<string, Row>, ok: bool)
    requires !PhaseOf(s, w).Idle? && PhaseOf(s, w).c == c && c in s.commands
    requires Knows(s, s.commands[c].executionId) && !s.executions[s.commands[c].executionId].PENDING?
    ensures var s' := CompleteWith(s, w, c, rows, ok); var k, p' := s.commands[c], PhaseOf(s', w);
      && c in s'.commands
      && (Lets(p', k, s'.commands[c], Processed) || (s'.commands[c] == k && !ok && p' == Erring(c, true)))
  {
    var x := s.commands[c].executionId;
    FinishEffect(s, w, c, ok);
    FinishEffect(Persist(s.(executions := s.executions[x := SUCCEEDED]), rows), w, c, ok);
  }

  lemma FailureEffect(s: State, w: nat, c: nat, rows: map<string, Row>)
    requires !PhaseOf(s, w).Idle? && PhaseOf(s, w).c == c && c in s.commands
    ensures var s' := FailWith(s, w, c, rows); var k, p' := s.commands[c], PhaseOf(s', w);
      && c in s'.commands
      && if Knows(s, k.executionId) then s'.commands[c] == k && p' == Settled(c)
         else Lets(p', k, s'.commands[c], Queued)
  {
    var x := s.commands[c].executionId;
    MoveEffect(s, w, Settled(c));
    MoveEffect(Persist(s.(executions := s.executions[x := ExecutionStatus.FAILED]), rows), w, Settled(c));
  }

  lemma GuardedEffect(s: State, w: nat, action: Action)
    requires Guarded(action) && InCustody(s)
    ensures EffectOf(s, w, action)
  {
    var p := PhaseOf(s, w);
    if !p.Idle? {
      HolderFacts(s, w);
      WorkerKeepsPlans(s, w, action);
      match action {
        case Start(ok) => if p == Seen(p.c, PENDING) { StartEffect(s, w, p.c, RowsAfter(s, w, action), ok); }
        case Complete(ok) => if p.Executing? { CompleteEffect(s, w, p.c, RowsAfter(s, w, action), ok); }
        case RecordFailure => if p.Erring? { FailureEffect(s, w, p.c, RowsAfter(s, w, action)); }
      }
      CommandsStay(s, w, action);
    }
  }

  lemma NodeEffect(s: State, w: nat, action: Action)
    requires WritesNode(action)
    ensures EffectOf(s, w, action)
  {
  }

  lemma LeavingEffect(s: State, w: nat, action: Action)
    requires LetsGo(action)
    ensures EffectOf(s, w, action)
  {
  }

  lemma RetryEffect(s: State, w: nat)
    requires Numbered(s.commands, s.nextCommand)
    ensures EffectOf(s, w, Retry)
  {
  }

  lemma ActionEffect(s: State, w: nat, action: Action)
    requires InCustody(s) && Numbered(s.commands, s.nextCommand)
    ensures EffectOf(s, w, action)
  {
    if Guarded(action) {
      GuardedEffect(s, w, action);
    } else if WritesNode(action) {
      NodeEffect(s, w, action);
    } else if LetsGo(action) {
      LeavingEffect(s, w, action);
    } else {
      match action {
        case Load(ok) => LoadEffect(s, w, ok);
        case Retry => RetryEffect(s, w);
        case _ =>
      }
    }
  }

  // ---- A worker left to itself ----

  /** What an action does when nobody acts in between: to the worker, its command, and the status of the execution. */
  predicate LoneAfter(
      p: Phase, k: Command, action: Action, st: ExecutionStatus,
      p': Phase, k': Command, st': ExecutionStatus, plan: Plan)
    requires !p.Idle?
  {
    match action
    case Load(_) => st' == st && (p.Fetched? && !Terminal(st) ==> p' == Seen(p.c, st) && k' == k)
    case Start(ok) => p == Seen(p.c, PENDING) && st.PENDING? ==> st'.RUNNING? && p' == Entered(p.c, ok) && k' == k
    case Restate(ok) => st' == st && (p == Seen(p.c, RUNNING) ==> p' == Entered(p.c, ok) && k' == k)
    case Complete(ok) =>
      p.Executing? && !p.begun && Done(plan, p.done) && st.RUNNING? ==>
        st'.SUCCEEDED? && (if ok then Lets(p', k, k', Processed) else p' == Erring(p.c, true) && k' == k)
    case RecordFailure =>
      p.Erring? && !Retries(p.retryable, k.attempt) ==> st' == if Terminal(st) then st else ExecutionStatus.FAILED
    case _ => st' == st
  }

  ghost predicate LoneEffect(p: Phase, k: Command, action: Action, w: nat, s: State, s': State) {
    !p.Idle? && Knows(s, k.executionId) ==>
      && p.c in s'.commands && Knows(s', k.executionId)
      && LoneAfter(p, k, action, s.executions[k.executionId], PhaseOf(s', w), s'.commands[p.c],
                   s'.executions[k.executionId], PlanOf(s, k.executionId))
  }

  lemma LoneGuarded(s: State, w: nat, action: Action)
    requires Guarded(action) && !PhaseOf(s, w).Idle? && PhaseOf(s, w).c in s.commands
    ensures LoneEffect(PhaseOf(s, w), s.commands[PhaseOf(s, w).c], action, w, s, ApplyWorker(s, w, action))
  {
    var p := PhaseOf(s, w);
    var k, rows := s.commands[p.c], RowsAfter(s, w, action);
    CommandsStay(s, w, action);
    WorkerKeepsPlans(s, w, action);
    if Knows(s, k.executionId) {
      match action {
        case Start(ok) => LoneStart(s, w, p.c, rows, ok);
        case Complete(ok) => LoneCompletion(s, w, p.c, rows, ok);
        case RecordFailure => LoneFailure(s, w, p.c, rows);
      }
    }
  }

  lemma LoneStart(s: State, w: nat, c: nat, rows: map<string, Row>, ok: bool)
    requires c in s.commands && Knows(s, s.commands[c].executionId)
    ensures var s', x := StartWith(s, w, c, rows, ok), s.commands[c].executionId;
      s.executions[x].PENDING? ==>
        s'.executions[x].RUNNING? && PhaseOf(s', w) == Entered(c, ok) && s'.commands == s.commands
  {
  }

  lemma LoneCompletion(s: State, w: nat, c: nat, rows: map<string, Row>, ok: bool)
    requires c in s.commands && Knows(s, s.commands[c].executionId)
    ensures var s', x := CompleteWith(s, w, c, rows, ok), s.commands[c].executionId;
      s.executions[x].RUNNING? ==>
        && x in s'.executions && s'.executions[x].SUCCEEDED? && c in s'.commands
        && if ok then Lets(PhaseOf(s', w), s.commands[c], s'.commands[c], Processed)
           else PhaseOf(s', w) == Erring(c, true) && s'.commands[c] == s.commands[c]
  {
    var x := s.commands[c].executionId;
    if s.executions[x].RUNNING? {
      var t := Persist(s.(executions := s.executions[x := SUCCEEDED]), rows);
      FinishEffect(t, w, c, ok);
      FinishLeavesRows(t, w, c, ok);
    }
  }

  lemma LoneFailure(s: State, w: nat, c: nat, rows: map<string, Row>)
    requires c in s.commands && Knows(s, s.commands[c].executionId)
    ensures var s', x := FailWith(s, w, c, rows), s.commands[c].executionId;
      x in s'.executions && s'.executions[x] == if Terminal(s.executions[x]) then s.executions[x] else FAILED
  {
  }

  lemma LoneRestatement(s: State, w: nat, ok: bool)
    requires !PhaseOf(s, w).Idle? && PhaseOf(s, w).c in s.commands
    ensures LoneEffect(PhaseOf(s, w), s.commands[PhaseOf(s, w).c], Restate(ok), w, s, ApplyRestate(s, w, ok))
  {
  }

  lemma LoneLoad(s: State, w: nat, ok: bool)
    requires !PhaseOf(s, w).Idle? && PhaseOf(s, w).c in s.commands
    ensures LoneEffect(PhaseOf(s, w), s.commands[PhaseOf(s, w).c], Load(ok), w, s, ApplyLoad(s, w, ok))
  {
  }

  lemma LoneNode(s: State, w: nat, action: Action)
    requires WritesNode(action)
    ensures ApplyWorker(s, w, action).executions == s.executions
    ensures ApplyWorker(s, w, action).commands == s.commands
  {
  }

  lemma LoneTurn(s: State, w: nat, action: Action)
    requires !PhaseOf(s, w).Idle? && PhaseOf(s, w).c in s.commands
    ensures LoneEffect(PhaseOf(s, w), s.commands[PhaseOf(s, w).c], action, w, s, ApplyWorker(s, w, action))
  {
    if !action.Retry? { CommandsStay(s, w, action); }
    if Guarded(action) {
      LoneGuarded(s, w, action);
    } else if WritesNode(action) {
      LoneNode(s, w, action);
    } else {
      match action {
        case Load(ok) => LoneLoad(s, w, ok);
        case Restate(ok) => LoneRestatement(s, w, ok);
        case _ => QuietActionsLeaveRows(s, w, action);
      }
    }
  }

  /** The answers of the outside world get a live execution to its completing transaction. */
  predicate RunsThrough(a: Answers, plan: Plan) { a.startOk && PlanTrouble(a, plan).NoTrouble? }

  /** The error of a delivery that nobody interferes with. */
  function LoneTrouble(a: Answers, plan: Plan): Trouble {
    if RunsThrough(a, plan) then (if a.completeOk then NoTrouble else Throws(true))
    else if !a.startOk then Throws(true)
    else PlanTrouble(a, plan)
  }

  /** How a worker that nobody interferes with ends a delivery for an execution that is pending or running. */
  function LoneEnding(a: Answers, plan: Plan, attempt: nat): Ending {
    match LoneTrouble(a, plan)
    case NoTrouble => WasProcessed
    case Throws(retryable) =>
      if retryable && attempt < 3 then WasRepublished
      else if a.recorded && a.buried then WasDeadLettered
      else WasPutBack
  }

  /** And the status it leaves: SUCCEEDED if it got through, also when the dispatch after that fails; FAILED if a
      failure that is not retried was recorded; otherwise it is left RUNNING. */
  function LoneStatus(a: Answers, plan: Plan, attempt: nat): ExecutionStatus {
    if RunsThrough(a, plan) then SUCCEEDED
    else if (LoneTrouble(a, plan) == Throws(true) && attempt < 3) || !a.recorded then RUNNING
    else ExecutionStatus.FAILED
  }

  lemma InvHasCustody(s: State)
    requires Inv(s)
    ensures InCustody(s) && Numbered(s.commands, s.nextCommand)
  {
  }

  /** What the others do leaves the effect of this worker's next action as it would be. */
  lemma WaitKeepsHold(s: State, meanwhile: seq<Step>, w: nat)
    requires Inv(s) && NotBy(meanwhile, w)
    ensures HoldsOwn(s, w) && SameHold(s, Run(s, meanwhile), w)
    ensures InCustody(Run(s, meanwhile)) && Numbered(Run(s, meanwhile).commands, Run(s, meanwhile).nextCommand)
  {
    OthersKeep(s, meanwhile, w);
    EveryoneHoldsOwn(s, w);
    InvHasCustody(Run(s, meanwhile));
  }

  lemma TurnRemembers(s: State, meanwhile: seq<Step>, w: nat, action: Action)
    ensures Remembers(s, Apply(Run(s, meanwhile), Worker(w, action)))
  {
    RunRemembers(s, meanwhile);
    StepRemembers(Run(s, meanwhile), Worker(w, action));
    StillRemembers(s, Run(s, meanwhile), Apply(Run(s, meanwhile), Worker(w, action)));
  }

  lemma StillRemembers(s: State, t: State, u: State)
    requires Remembers(s, t) && Remembers(t, u)
    ensures Remembers(s, u)
  {
  }

  lemma EffectOnHeld(s: State, t: State, w: nat, action: Action)
    requires HoldsOwn(s, w) && SameHold(s, t, w) && EffectOf(t, w, action)
    ensures !PhaseOf(s, w).Idle? ==>
      && PhaseOf(s, w).c in s.commands
      && Effect(PhaseOf(s, w), s.commands[PhaseOf(s, w).c], action, w, ApplyWorker(t, w, action))
      && Notes(PhaseOf(s, w), s.commands[PhaseOf(s, w).c], action, ApplyWorker(t, w, action))
  {
    NodeIsNoted(t, w, action);
  }

  /** The others' steps and then one action of this worker. */
  lemma TurnIsSafe(s: State, meanwhile: seq<Step>, w: nat, action: Action)
    requires Inv(s) && NotBy(meanwhile, w)
    ensures var s' := ApplyWorker(Run(s, meanwhile), w, action);
      && Remembers(s, s')
      && (!PhaseOf(s, w).Idle? ==> PhaseOf(s, w).c in s.commands)
      && (!PhaseOf(s, w).Idle? ==>
            && Effect(PhaseOf(s, w), s.commands[PhaseOf(s, w).c], action, w, s')
            && Notes(PhaseOf(s, w), s.commands[PhaseOf(s, w).c], action, s'))
  {
    WaitKeepsHold(s, meanwhile, w);
    TurnRemembers(s, meanwhile, w, action);
    ActionEffect(Run(s, meanwhile), w, action);
    EffectOnHeld(s, Run(s, meanwhile), w, action);
  }

  lemma TurnIsRecorded(trace: seq<Step>, meanwhile: seq<Step>, w: nat, action: Action)
    ensures Run(INITIAL, trace + meanwhile) == Run(Run(INITIAL, trace), meanwhile)
    ensures Run(INITIAL, trace + meanwhile + [Worker(w, action)])
      == ApplyWorker(Run(Run(INITIAL, trace), meanwhile), w, action)
  {
    RunAppend(INITIAL, trace, meanwhile);
    var trace' := trace + meanwhile + [Worker(w, action)];
    assert trace'[..|trace'| - 1] == trace + meanwhile;
  }

  // ---- Deliveries ----

  predicate CanDeliver(s: State, c: nat) { c in s.commands && s.commands[c].at.Queued? }

  lemma DeliveryStarts(s: State, meanwhile: seq<Step>, w: nat, c: nat)
    requires Inv(s) && NotBy(meanwhile, w) && PhaseOf(s, w).Idle?
    ensures var t := Run(s, meanwhile); var s' := ApplyWorker(t, w, Deliver(c));
      if CanDeliver(t, c)
      then PhaseOf(s', w) == Fetched(c) && c in s'.commands && s'.commands[c] == t.commands[c].(at := Held(w))
      else s' == t && PhaseOf(s', w).Idle?
  {
    OthersKeep(s, meanwhile, w);
  }

  /** How command `k`, delivered and let go of, is left. */
  ghost predicate LeftAs(s: State, c: nat, k: Command, ending: Ending) {
    c in s.commands &&
    match ending
    case NotDelivered => true
    case WasProcessed => s.commands[c] == k.(at := Processed) && IsTerminal(s, k.executionId)
    case WasDeadLettered => s.commands[c] == k.(at := DeadLettered) && IsTerminal(s, k.executionId)
    case WasPutBack => s.commands[c] == k.(at := Queued)
    case WasRepublished =>
      && s.commands[c].at.Superseded? && s.commands[c] == k.(at := s.commands[c].at)
      && IsCopy(s.commands, k, s.commands[c].at.copy)
  }

  /** Why it is left like that, given the answers and the plan of the execution, if it was known at delivery. */
  ghost predicate Warranted(t: State, k: Command, a: Answers, ending: Ending) {
    var trouble := PlanTrouble(a, PlanOf(t, k.executionId));
    && (Knows(t, k.executionId) && Smooth(a) && trouble.NoTrouble? ==> ending.WasProcessed?)
    && (ending.WasRepublished? ==> k.attempt < MAX_RETRY_ATTEMPTS)
    && (Knows(t, k.executionId) && ending.WasRepublished? ==> !Smooth(a) || trouble == Throws(true))
    && (Knows(t, k.executionId) && a.loadOk && a.startOk && trouble == Throws(false) ==> !ending.WasRepublished?)
    && (Knows(t, k.executionId) && (ending.WasDeadLettered? || ending.WasPutBack?) ==>
          k.attempt >= MAX_RETRY_ATTEMPTS || trouble == Throws(false))
    && (ending.WasPutBack? ==> !a.recorded || !a.buried || !Knows(t, k.executionId))
  }

  lemma CompletionIsKnown(trace: seq<Step>, w: nat)
    requires PhaseOf(Run(INITIAL, trace), w).Executing?
    ensures var s := Run(INITIAL, trace); var c := PhaseOf(s, w).c;
      c in s.commands && Knows(s, s.commands[c].executionId)
  {
    RunKeepsInv(trace);
    HolderFacts(Run(INITIAL, trace), w);
  }

  lemma CopyIsQueued(trace: seq<Step>, c: nat)
    requires c in Run(INITIAL, trace).commands && Run(INITIAL, trace).commands[c].at.Superseded?
    ensures var commands := Run(INITIAL, trace).commands; IsCopy(commands, commands[c], commands[c].at.copy)
  {
    CommandsAreAccountedFor(trace, c);
  }

  class Worker {
    const w: nat
    /** What others do before this worker's next transaction, by its number. */
    const others: nat -> seq<Step>
    var clock: nat
    var s: State
    /** The run that has led to the present state. */
    ghost var trace: seq<Step>

    constructor (w: nat, others: nat -> seq<Step>, s: State, ghost history: seq<Step>)
      requires s == Run(INITIAL, history) && PhaseOf(s, w).Idle?
      requires forall n :: NotBy(others(n), w)
      ensures Valid() && Phase().Idle?
      ensures this.w == w && this.others == others && this.s == s && trace == history
    {
      this.w, this.others, this.clock, this.s := w, others, 0, s;
      this.trace := history;
    }

    ghost predicate Valid()
      reads this
    {
      && (forall n :: NotBy(others(n), w))
      && s == Run(INITIAL, trace)
    }

    function Phase(): Phase
      reads this
    {
      PhaseOf(s, w)
    }

    /** This worker holds command `c`, which is still as it was when it was delivered. */
    ghost predicate Holding(c: nat, k: Command)
      reads this
    {
      Valid() && !Phase().Idle? && Phase().c == c && c in s.commands && s.commands[c] == k
    }

    ghost predicate Gone(c: nat, k: Command)
      reads this
    {
      Valid() && Phase().Idle? && c in s.commands && s.commands[c] == k
    }

    /** Nobody else acts. */
    ghost predicate Alone()
      reads this
    {
      forall n :: others(n) == []
    }

    ghost predicate HasStatus(x: string, st: ExecutionStatus)
      reads this
    {
      Knows(s, x) && s.executions[x] == st
    }

    /** With nobody else about, the execution has its status still. */
    twostate predicate StatusKept(x: string)
      reads this
    {
      Alone() && Knows(old(s), x) ==> HasStatus(x, old(s).executions[x])
    }

    /** One transaction of this worker on command `c`, after whatever the others do first. */
    method Take(c: nat, ghost k: Command, action: Action)
      requires Holding(c, k)
      modifies this
      ensures Valid() && old(trace) <= trace && Remembers(old(s), s)
      ensures Effect(old(Phase()), k, action, w, s) && Notes(old(Phase()), k, action, s)
      ensures Alone() ==> LoneEffect(old(Phase()), k, action, w, old(s), s)
    {
      var meanwhile := others(clock);
      clock := clock + 1;
      RunKeepsInv(trace);
      LoneTurn(s, w, action);
      TurnIsSafe(s, meanwhile, w, action);
      TurnIsRecorded(trace, meanwhile, w, action);
      s, trace := ApplyWorker(Run(s, meanwhile), w, action), trace + meanwhile + [Step.Worker(w, action)];
    }

    /** The broker delivers command `c`, if it is queued by then. `before` is the run up to the delivery. */
    method Receive(c: nat) returns (ghost before: seq<Step>)
      requires Valid() && Phase().Idle?
      modifies this
      ensures Valid() && old(trace) <= before && trace == before + [Step.Worker(w, Deliver(c))]
      ensures var t := Run(INITIAL, before);
        if CanDeliver(t, c)
        then Holding(c, t.commands[c].(at := Held(w))) && Phase().Fetched? && Remembers(t, s)
          && s.executions == t.executions
        else s == t && Phase().Idle?
    {
      var meanwhile := others(clock);
      clock := clock + 1;
      RunKeepsInv(trace);
      DeliveryStarts(s, meanwhile, w, c);
      TurnIsRecorded(trace, meanwhile, w, Deliver(c));
      before := trace + meanwhile;
      StepRemembers(Run(INITIAL, before), Step.Worker(w, Deliver(c)));
      s, trace := ApplyWorker(Run(s, meanwhile), w, Deliver(c)), before + [Step.Worker(w, Deliver(c))];
    }

    /** The error path of a node that has begun: its failed event, then the error. */
    method FailBegunNode(c: nat, ghost k: Command, retryable: bool)
      requires Holding(c, k) && Phase().Executing? && Phase().begun
      requires KnownPlan(s, k.executionId) && Phase().done < |PlanOf(s, k.executionId).ids|
      modifies this
      ensures old(trace) <= trace && Holding(c, k) && Remembers(old(s), s)
      ensures StatusKept(k.executionId)
      ensures Phase() == Erring(c, retryable) && Noted(s, k.executionId, old(Phase()).done, NodeFailed)
    {
      Take(c, k, FailNode);
      Take(c, k, Raise(retryable));
    }

    /** A node that has begun: it completes, or it fails and the worker is in error. */
    method EndBegunNode(c: nat, ghost k: Command, i: nat, end: NodeEnd)
      requires Holding(c, k) && Phase() == Executing(c, i, true)
      requires KnownPlan(s, k.executionId) && i < |PlanOf(s, k.executionId).ids|
      modifies this
      ensures old(trace) <= trace && Holding(c, k) && Remembers(old(s), s)
      ensures StatusKept(k.executionId)
      ensures Phase() == if end == NodeSucceeds(true) then Executing(c, i + 1, false)
                         else Erring(c, end.NodeThrows? ==> end.retryable)
      ensures end.NodeSucceeds? ==> Noted(s, k.executionId, i, NodeCompleted)
      ensures end != NodeSucceeds(true) ==> Noted(s, k.executionId, i, NodeFailed)
    {
      if end.NodeSucceeds? {
        Take(c, k, EndNode(end.dispatched));
        if end.dispatched {
          return;
        }
      }
      FailBegunNode(c, k, end.NodeThrows? ==> end.retryable);
    }

    /** Run one node: its events in order, and an error when it throws or an event is not sent. */
    method ExecuteNode(c: nat, ghost k: Command, i: nat, run: NodeRun)
      requires Holding(c, k) && Phase() == Executing(c, i, false)
      requires KnownPlan(s, k.executionId) && i < |PlanOf(s, k.executionId).ids|
      modifies this
      ensures old(trace) <= trace && Holding(c, k) && Remembers(old(s), s)
      ensures StatusKept(k.executionId)
      ensures Phase() == if GoodNode(run) then Executing(c, i + 1, false)
                         else Erring(c, NodeRetryable(run))
      ensures Noted(s, k.executionId, i, NodeStarted)
      ensures GoodNode(run) ==> Noted(s, k.executionId, i, NodeCompleted)
      ensures run.begunDispatched && !GoodNode(run) ==> Noted(s, k.executionId, i, NodeFailed)
    {
      Take(c, k, BeginNode);
      if run.begunDispatched {
        EndBegunNode(c, k, i, run.end);
      } else {
        Take(c, k, Raise(true));
      }
    }

    /** Run the nodes of the plan in order: either all of them are done, or the worker is in just the error that
        the answers and the plan call for. */
    method ExecuteWorkflowNodes(c: nat, ghost k: Command, x: string, a: Answers)
      requires Holding(c, k) && x == k.executionId && Phase() == Executing(c, 0, false) && Knows(s, x)
      modifies this
      ensures old(trace) <= trace && Holding(c, k) && Remembers(old(s), s)
      ensures StatusKept(k.executionId)
      ensures match PlanTrouble(a, PlanOf(old(s), x))
        case NoTrouble => Phase().Executing? && !Phase().begun && Done(PlanOf(s, x), Phase().done)
        case Throws(retryable) => Phase() == Erring(c, retryable)
    {
      if a.setup.SetupThrows? {
        Take(c, k, Raise(a.setup.retryable));
        return;
      }
      var plan := PlanOf(s, x);
      if plan.Invalid? {
        Take(c, k, Raise(false));
        return;
      }
      for i := 0 to |plan.ids|
        invariant old(trace) <= trace && Holding(c, k) && Remembers(old(s), s)
        invariant Phase() == Executing(c, i, false) && Knows(s, x) && PlanOf(s, x) == plan
        invariant StatusKept(x)
        invariant NodesTrouble(a.nodes, i, |plan.ids|) == PlanTrouble(a, plan)
      {
        ExecuteNode(c, k, i, a.nodes(i));
        if Phase().Erring? {
          return;
        }
      }
    }

    /** Load the execution and enter it. */
    method EnterExecution(c: nat, ghost k: Command, a: Answers)
      requires Holding(c, k) && Phase().Fetched?
      modifies this
      ensures old(trace) <= trace && Remembers(old(s), s)
      ensures Gone(c, k.(at := Processed)) || (Holding(c, k) && (Phase() == Executing(c, 0, false) || Phase().Erring?))
      ensures Phase().Executing? ==> Knows(s, k.executionId)
      ensures Phase().Erring? ==>
        if Phase().retryable then !a.loadOk || !a.startOk else !Knows(old(s), k.executionId)
      ensures Alone() && Knows(old(s), k.executionId) && !Terminal(old(s).executions[k.executionId]) ==>
        HasStatus(k.executionId, RUNNING) && Holding(c, k) && Phase() == Entered(c, a.startOk)
    {
      Take(c, k, Load(a.loadOk));
      if Phase().Idle? || Phase().Erring? {
        return;
      }
      if Phase().status.PENDING? {
        Take(c, k, Start(a.startOk));
      } else {
        Take(c, k, Restate(a.startOk));
      }
    }

    /** Process the command: either it is done with, or the worker is left with an error to handle, which is the
        one that the answers and the plan call for. */
    method ProcessWorkflowExecution(c: nat, ghost k: Command, x: string, a: Answers)
      requires Holding(c, k) && x == k.executionId && Phase().Fetched?
      modifies this
      ensures old(trace) <= trace && Remembers(old(s), s)
      ensures (Holding(c, k) && Phase().Erring?) || Gone(c, k.(at := Processed))
      ensures Phase().Erring? && Knows(old(s), x) ==> ErrsFor(a, PlanOf(old(s), x), Phase().retryable)
      ensures Alone() && Knows(old(s), x) && !Terminal(old(s).executions[x]) ==>
        && HasStatus(x, if RunsThrough(a, PlanOf(old(s), x)) then SUCCEEDED else RUNNING)
        && match LoneTrouble(a, PlanOf(old(s), x))
           case NoTrouble => Phase().Idle?
           case Throws(retryable) => Phase() == Erring(c, retryable)
    {
      EnterExecution(c, k, a);
      if !Phase().Executing? {
        return;
      }
      ExecuteWorkflowNodes(c, k, x, a);
      if Phase().Erring? {
        return;
      }
      CompleteExecution(c, k, x, a.completeOk);
    }

    /** After the last node: the completing transaction. */
    method CompleteExecution(c: nat, ghost k: Command, x: string, ok: bool)
      requires Holding(c, k) && x == k.executionId
      requires Phase().Executing? && !Phase().begun && Done(PlanOf(s, x), Phase().done)
      modifies this
      ensures old(trace) <= trace && Remembers(old(s), s)
      ensures Gone(c, k.(at := Processed)) || (Holding(c, k) && Phase() == Erring(c, true) && !ok)
      ensures Alone() && old(HasStatus(x, RUNNING)) ==> HasStatus(x, SUCCEEDED) && (Phase().Idle? <==> ok)
    {
      assert Knows(s, x) by { CompletionIsKnown(trace, w); }
      Take(c, k, Complete(ok));
    }

    /** Handle one delivery. The worker always lets go of it, in the way the answers call for. */
    method HandleDelivery(c: nat, a: Answers) returns (ending: Ending, ghost before: seq<Step>)
      requires Valid() && Phase().Idle?
      modifies this
      ensures Valid() && Phase().Idle?
      ensures old(trace) <= before && before + [Step.Worker(w, Deliver(c))] <= trace
      ensures var t := Run(INITIAL, before);
        if CanDeliver(t, c)
        then var k := t.commands[c].(at := Held(w));
          !ending.NotDelivered? && LeftAs(s, c, k, ending) && Warranted(t, k, a, ending)
        else ending.NotDelivered? && s == t
      ensures var t := Run(INITIAL, before);
        Alone() && CanDeliver(t, c) && Knows(t, t.commands[c].executionId)
        && !Terminal(t.executions[t.commands[c].executionId]) ==>
          var k := t.commands[c]; var plan := PlanOf(t, k.executionId);
          ending == LoneEnding(a, plan, k.attempt) && HasStatus(k.executionId, LoneStatus(a, plan, k.attempt))
    {
      before := Receive(c);
      if Phase().Idle? {
        return NotDelivered, before;
      }
      ghost var t := Run(INITIAL, before);
      var k := s.commands[c];
      ProcessWorkflowExecution(c, k, k.executionId, a);
      if Phase().Idle? {
        CommandsAreAccountedFor(trace, c);
        return WasProcessed, before;
      }
      ending := HandleError(c, k, k.executionId, a);
    }

    /** Republish for the next attempt, or bury. */
    method HandleError(c: nat, ghost k: Command, x: string, a: Answers) returns (ending: Ending)
      requires Holding(c, k) && x == k.executionId && Phase().Erring?
      modifies this
      ensures Valid() && Phase().Idle? && old(trace) <= trace && LeftAs(s, c, k, ending)
      ensures ending.WasRepublished? <==> Retries(old(Phase()).retryable, k.attempt)
      ensures ending.WasRepublished? || ending.WasDeadLettered? || ending.WasPutBack?
      ensures ending.WasRepublished? ==> StatusKept(x)
      ensures ending.WasPutBack? ==> !a.recorded || !a.buried || !Knows(old(s), x)
      ensures Alone() && Knows(old(s), x) && !ending.WasRepublished? ==>
        && (ending.WasDeadLettered? <==> a.recorded && a.buried)
        && HasStatus(x, if a.recorded && !Terminal(old(s).executions[x]) then ExecutionStatus.FAILED
                        else old(s).executions[x])
    {
      if Retries(Phase().retryable, s.commands[c].attempt) {
        Republish(c, k);
        return WasRepublished;
      }
      ending := Bury(c, k, x, a);
    }

    /** Publish the copy for the next attempt, then acknowledge. */
    method Republish(c: nat, ghost k: Command)
      requires Holding(c, k) && Phase().Erring? && Retries(Phase().retryable, k.attempt)
      modifies this
      ensures Valid() && Phase().Idle? && old(trace) <= trace
      ensures LeftAs(s, c, k, WasRepublished) && StatusKept(k.executionId)
    {
      Take(c, k, Retry);
      Take(c, k, AckRetry);
      CopyIsQueued(trace, c);
    }

    /** Record the failure and dead-letter the command; put it back when any of that does not work. */
    method Bury(c: nat, ghost k: Command, x: string, a: Answers) returns (ending: Ending)
      requires Holding(c, k) && x == k.executionId && Phase().Erring? && !Retries(Phase().retryable, k.attempt)
      modifies this
      ensures Valid() && Phase().Idle? && old(trace) <= trace
      ensures (ending.WasDeadLettered? || ending.WasPutBack?) && LeftAs(s, c, k, ending)
      ensures ending.WasPutBack? ==> !a.recorded || !a.buried || !Knows(old(s), x)
      ensures Alone() && Knows(old(s), x) ==>
        && (ending.WasDeadLettered? <==> a.recorded && a.buried)
        && HasStatus(x, if a.recorded && !Terminal(old(s).executions[x]) then ExecutionStatus.FAILED
                        else old(s).executions[x])
    {
      if !a.recorded {
        Take(c, k, Nack);
        return WasPutBack;
      }
      Take(c, k, RecordFailure);
      if Phase().Idle? {
        return WasPutBack;
      }
      ending := LeaveSettled(c, k, a.buried);
    }

    /** With the failure recorded: dead-letter the command, or put it back when that does not work. */
    method LeaveSettled(c: nat, ghost k: Command, buried: bool) returns (ending: Ending)
      requires Holding(c, k) && Phase().Settled?
      modifies this
      ensures Valid() && Phase().Idle? && old(trace) <= trace && LeftAs(s, c, k, ending)
      ensures StatusKept(k.executionId)
      ensures ending == if buried then WasDeadLettered else WasPutBack
    {
      if !buried {
        Take(c, k, Nack);
        return WasPutBack;
      }
      Take(c, k, DeadLetter);
      CommandsAreAccountedFor(trace, c);
      return WasDeadLettered;
    }
  }
}
