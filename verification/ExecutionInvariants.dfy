/** What every run of the execution protocol keeps. */
module ExecutionInvariants {
  import opened ExecutionProtocol

  // ---- The invariant, in parts ----

  /** Rows sit under the key of a well-formed event of a known execution. */
  ghost predicate Keyed(executions: map<string, ExecutionStatus>, outbox: map<string, Row>) {
    && (forall x :: x in executions ==> ColonFree(x))
    && (forall k :: k in outbox ==>
          && k == Key(outbox[k].event)
          && WellFormed(outbox[k].event)
          && outbox[k].event.executionId in executions)
  }

  predicate Has(outbox: map<string, Row>, kind: Kind, x: string) { Key(Event(kind, x, "")) in outbox }

  ghost predicate LifecycleOf(outbox: map<string, Row>, x: string, st: ExecutionStatus) {
    && (Has(outbox, WorkflowCompleted, x) <==> st.SUCCEEDED?)
    && (Has(outbox, WorkflowFailed, x) <==> st.FAILED?)
    && (st.RUNNING? || st.SUCCEEDED? ==> Has(outbox, WorkflowStarted, x))
    && (Has(outbox, WorkflowStarted, x) ==> !st.PENDING?)
  }

  /** Rows and statuses agree: completed row iff SUCCEEDED, failed row iff FAILED, started row when due. */
  ghost predicate Lifecycle(executions: map<string, ExecutionStatus>, outbox: map<string, Row>) {
    forall x :: x in executions ==> LifecycleOf(outbox, x, executions[x])
  }

  ghost predicate TerminalIn(executions: map<string, ExecutionStatus>, x: string) {
    x in executions && Terminal(executions[x])
  }

  /** Command `copy` is the retry of `k`, wherever it is by now. */
  ghost predicate IsCopy(commands: map<nat, Command>, k: Command, copy: nat) {
    k.attempt < MAX_RETRY_ATTEMPTS && copy in commands && commands[copy].(at := Queued) == NextAttempt(k)
  }

  ghost predicate PhaseOk(executions: map<string, ExecutionStatus>, commands: map<nat, Command>, w: nat, p: Phase) {
    !p.Idle? ==>
      && p.c in commands
      && commands[p.c].at == Held(w)
      && var x := commands[p.c].executionId;
         match p
         case Seen(_, st) => x in executions && !Terminal(st) && (st.RUNNING? ==> !executions[x].PENDING?)
         case Executing(_, _, _) => x in executions && !executions[x].PENDING?
         case Copied(_, copy) => IsCopy(commands, commands[p.c], copy)
         case Settled(_) => TerminalIn(executions, x)
         case _ => true
  }

  function TotalTtl(from: nat, to: nat): nat
    decreases to
  {
    if to <= from || to > |RETRY_TTLS_MS| then 0 else TotalTtl(from, to - 1) + RETRY_TTLS_MS[to - 1]
  }

  /** A command is queued, held by the worker that says so, done with a terminal execution, or replaced by a
      copy; and its retry history is accounted for. */
  ghost predicate CommandOk(
      executions: map<string, ExecutionStatus>, workers: map<nat, Phase>, commands: map<nat, Command>,
      c: nat, k: Command)
  {
    && (k.at.Held? ==> k.at.worker in workers && !workers[k.at.worker].Idle? && workers[k.at.worker].c == c)
    && (k.at.Processed? || k.at.DeadLettered? ==> TerminalIn(executions, k.executionId))
    && (k.at.Superseded? ==> IsCopy(commands, k, k.at.copy))
    && LadderOk(k)
  }

  ghost predicate LadderOk(k: Command) {
    && k.attempt == k.firstAttempt + k.republished
    && (k.republished > 0 ==> k.attempt <= MAX_RETRY_ATTEMPTS)
    && k.delayMs == TotalTtl(k.firstAttempt, k.attempt)
  }

  ghost predicate Custody(
      executions: map<string, ExecutionStatus>, workers: map<nat, Phase>, commands: map<nat, Command>)
  {
    && (forall w :: w in workers ==> PhaseOk(executions, commands, w, workers[w]))
    && (forall c :: c in commands ==> CommandOk(executions, workers, commands, c, commands[c]))
  }

  ghost predicate Numbered(commands: map<nat, Command>, next: nat) { forall c :: c in commands ==> c < next }

  /** Event ids are numbered, so no two rows share one. */
  ghost predicate DistinctIds(outbox: map<string, Row>, next: nat) {
    && (forall k :: k in outbox ==> outbox[k].eventId < next)
    && (forall k, l :: k in outbox && l in outbox && outbox[k].eventId == outbox[l].eventId ==> k == l)
  }

  predicate OnRow(outbox: map<string, Row>, e: Event, eventId: nat) {
    Key(e) in outbox && outbox[Key(e)].event == e && outbox[Key(e)].eventId == eventId
  }

  /** Whatever travels or has been recorded comes from a row, under the event id of that row. */
  ghost predicate Traced(s: State) {
    && (forall m :: m in s.bus ==> OnRow(s.outbox, m.event, m.eventId))
    && (forall d :: d in s.dispatches ==> OnRow(s.outbox, s.dispatches[d].row.event, s.dispatches[d].row.eventId))
    && (forall id :: id in s.timeline ==> OnRow(s.outbox, s.timeline[id], id))
  }

  ghost predicate RowOk(s: State, row: Row) {
    && (row.status.RowPending? ==> row.attempts < MAX_PUBLISH_ATTEMPTS)
    && (row.status.RowFailed? ==> row.attempts >= MAX_PUBLISH_ATTEMPTS)
    && (row.status.RowPublished? ==> Published(row.event, row.eventId) in s.bus)
  }

  /** Rows and readings of rows: pending means attempts are left, published means it was sent. */
  ghost predicate RowsOk(s: State) {
    && (forall k :: k in s.outbox ==> RowOk(s, s.outbox[k]))
    && (forall d :: d in s.dispatches ==>
          var r := s.dispatches[d];
          !r.row.status.RowPublished? && RowOk(s, r.row)
          && (r.sent ==> Published(r.row.event, r.row.eventId) in s.bus))
  }

  predicate NodeRow(outbox: map<string, Row>, kind: Kind, x: string, node: string) {
    Key(Event(kind, x, node)) in outbox
  }

  /** The first `done` nodes of a plan have their started and completed rows. */
  ghost predicate RanNodes(outbox: map<string, Row>, x: string, ids: seq<string>, done: nat) {
    done <= |ids| && forall i :: 0 <= i < done ==>
      NodeRow(outbox, NodeStarted, x, ids[i]) && NodeRow(outbox, NodeCompleted, x, ids[i])
  }

  ghost predicate RanAll(outbox: map<string, Row>, x: string, plan: Plan) {
    plan.Nodes? && RanNodes(outbox, x, plan.ids, |plan.ids|)
  }

  /** What a worker has behind it when it has done some nodes and perhaps begun another. */
  ghost predicate RanSoFar(outbox: map<string, Row>, x: string, plan: Plan, done: nat, begun: bool) {
    || (done == 0 && !begun)
    || (plan.Nodes? && RanNodes(outbox, x, plan.ids, done)
        && (begun ==> done < |plan.ids| && NodeRow(outbox, NodeStarted, x, plan.ids[done])))
  }

  ghost predicate WorkerProgress(
      plans: map<string, Plan>, outbox: map<string, Row>, commands: map<nat, Command>, p: Phase)
  {
    p.Executing? ==>
      && p.c in commands && commands[p.c].executionId in plans
      && RanSoFar(outbox, commands[p.c].executionId, plans[commands[p.c].executionId], p.done, p.begun)
  }

  /** Workers have written the rows of the nodes they have done; a succeeded execution those of all its nodes. */
  ghost predicate Progress(s: State) {
    && s.plans.Keys == s.executions.Keys
    && (forall w :: w in s.workers ==> WorkerProgress(s.plans, s.outbox, s.commands, s.workers[w]))
    && (forall x :: x in s.executions && s.executions[x].SUCCEEDED? ==> RanAll(s.outbox, x, s.plans[x]))
  }

  ghost predicate Inv(s: State) {
    && Keyed(s.executions, s.outbox)
    && Lifecycle(s.executions, s.outbox)
    && Custody(s.executions, s.workers, s.commands)
    && Numbered(s.commands, s.nextCommand)
    && DistinctIds(s.outbox, s.nextId)
    && Traced(s)
    && RowsOk(s)
    && Progress(s)
  }

  // ---- Effects of the guarded transactions on rows ----

  lemma UpsertHas(executions: map<string, ExecutionStatus>, outbox: map<string, Row>, e: Event, eventId: nat, f: Event)
    requires Keyed(executions, outbox) && WellFormed(e) && WellFormed(f)
    ensures Key(f) in Upsert(outbox, e, eventId) <==> Key(f) in outbox || f == e
  {
    if Key(f) == Key(e) { KeySeparates(e, f); }
  }

  /** Moving an execution with the row of its new status keeps rows and statuses in agreement. */
  lemma MoveKeepsLifecycle(
      executions: map<string, ExecutionStatus>, outbox: map<string, Row>, x: string,
      to: ExecutionStatus, kind: Kind, eventId: nat)
    requires Keyed(executions, outbox) && Lifecycle(executions, outbox) && x in executions
    requires || (executions[x].PENDING? && to.RUNNING? && kind.WorkflowStarted?)
             || (executions[x].RUNNING? && to.SUCCEEDED? && kind.WorkflowCompleted?)
             || (!Terminal(executions[x]) && to.FAILED? && kind.WorkflowFailed?)
    ensures Keyed(executions[x := to], Upsert(outbox, Event(kind, x, ""), eventId))
    ensures Lifecycle(executions[x := to], Upsert(outbox, Event(kind, x, ""), eventId))
  {
    var e := Event(kind, x, "");
    var executions', outbox' := executions[x := to], Upsert(outbox, e, eventId);
    forall y | y in executions' ensures LifecycleOf(outbox', y, executions'[y]) {
      UpsertHas(executions, outbox, e, eventId, Event(WorkflowStarted, y, ""));
      UpsertHas(executions, outbox, e, eventId, Event(WorkflowCompleted, y, ""));
      UpsertHas(executions, outbox, e, eventId, Event(WorkflowFailed, y, ""));
      assert LifecycleOf(outbox, y, executions[y]);
    }
  }

  /** Persisting a node event, or the started event again, changes no lifecycle. */
  lemma ExtraRowKeepsLifecycle(
      executions: map<string, ExecutionStatus>, outbox: map<string, Row>, e: Event, eventId: nat)
    requires Keyed(executions, outbox) && Lifecycle(executions, outbox)
    requires WellFormed(e) && e.executionId in executions
    requires IsNodeKind(e.kind) || (e.kind.WorkflowStarted? && !executions[e.executionId].PENDING?)
    ensures Keyed(executions, Upsert(outbox, e, eventId)) && Lifecycle(executions, Upsert(outbox, e, eventId))
  {
    forall y | y in executions ensures LifecycleOf(Upsert(outbox, e, eventId), y, executions[y]) {
      UpsertHas(executions, outbox, e, eventId, Event(WorkflowStarted, y, ""));
      UpsertHas(executions, outbox, e, eventId, Event(WorkflowCompleted, y, ""));
      UpsertHas(executions, outbox, e, eventId, Event(WorkflowFailed, y, ""));
      assert LifecycleOf(outbox, y, executions[y]);
    }
  }

  lemma CreateKeepsLifecycle(executions: map<string, ExecutionStatus>, outbox: map<string, Row>, x: string)
    requires Keyed(executions, outbox) && Lifecycle(executions, outbox) && x !in executions && ColonFree(x)
    ensures Keyed(executions[x := PENDING], outbox) && Lifecycle(executions[x := PENDING], outbox)
  {
    assert forall kind :: Has(outbox, kind, x) && !IsNodeKind(kind) ==> false by {
      forall kind | Has(outbox, kind, x) && !IsNodeKind(kind) ensures false {
        KeySeparates(outbox[Key(Event(kind, x, ""))].event, Event(kind, x, ""));
      }
    }
    var executions' := executions[x := PENDING];
    forall y | y in executions' ensures LifecycleOf(outbox, y, executions'[y]) {
      if y != x { assert LifecycleOf(outbox, y, executions[y]); }
    }
  }

  // ---- Rows and statuses: every step keeps them in agreement ----

  ghost predicate Agree(s: State) { Keyed(s.executions, s.outbox) && Lifecycle(s.executions, s.outbox) }

  lemma StartKeepsAgreement(s: State, w: nat, ok: bool)
    requires Agree(s)
    ensures Agree(ApplyStart(s, w, ok))
  {
    match PhaseOf(s, w) {
      case Seen(c, PENDING) =>
        if c in s.commands && Knows(s, s.commands[c].executionId) && s.executions[s.commands[c].executionId].PENDING? {
          MoveKeepsLifecycle(s.executions, s.outbox, s.commands[c].executionId, RUNNING, WorkflowStarted, s.nextId);
        }
      case _ =>
    }
  }

  lemma CompleteKeepsAgreement(s: State, w: nat, ok: bool)
    requires Agree(s)
    ensures Agree(ApplyComplete(s, w, ok))
  {
    match PhaseOf(s, w) {
      case Executing(c, done, false) =>
        if c in s.commands && Knows(s, s.commands[c].executionId) && s.executions[s.commands[c].executionId].RUNNING? {
          MoveKeepsLifecycle(s.executions, s.outbox, s.commands[c].executionId, SUCCEEDED, WorkflowCompleted, s.nextId);
        }
      case _ =>
    }
  }

  lemma FailureKeepsAgreement(s: State, w: nat)
    requires Agree(s)
    ensures Agree(ApplyRecordFailure(s, w))
  {
    match PhaseOf(s, w) {
      case Erring(c, _) =>
        if c in s.commands && Knows(s, s.commands[c].executionId) && !IsTerminal(s, s.commands[c].executionId) {
          MoveKeepsLifecycle(s.executions, s.outbox, s.commands[c].executionId, FAILED, WorkflowFailed, s.nextId);
        }
      case _ =>
    }
  }

  lemma RestateKeepsAgreement(s: State, w: nat, ok: bool)
    requires Agree(s) && Custody(s.executions, s.workers, s.commands)
    ensures Agree(ApplyRestate(s, w, ok))
  {
    match PhaseOf(s, w) {
      case Seen(c, RUNNING) =>
        assert PhaseOk(s.executions, s.commands, w, s.workers[w]);
        ExtraRowKeepsLifecycle(s.executions, s.outbox, Event(WorkflowStarted, s.commands[c].executionId, ""), s.nextId);
      case _ =>
    }
  }

  lemma NodeKeepsAgreement(s: State, w: nat, kind: Kind, ok: bool)
    requires Agree(s) && Custody(s.executions, s.workers, s.commands) && IsNodeKind(kind)
    ensures Agree(ApplyNode(s, w, kind, ok))
  {
    match PhaseOf(s, w) {
      case Executing(c, done, _) =>
        assert PhaseOk(s.executions, s.commands, w, s.workers[w]);
        var x := s.commands[c].executionId;
        var plan := PlanOf(s, x);
        if plan.Nodes? && done < |plan.ids| {
          ExtraRowKeepsLifecycle(s.executions, s.outbox, Event(kind, x, plan.ids[done]), s.nextId);
        }
      case _ =>
    }
  }

  /** Writing delivery results back to rows leaves keys and events alone. */
  lemma TransferKeepsEvents(s: State, transfer: Transfer)
    ensures ApplyTransfer(s, transfer).executions == s.executions
    ensures ApplyTransfer(s, transfer).outbox.Keys == s.outbox.Keys
    ensures forall k :: k in s.outbox ==> ApplyTransfer(s, transfer).outbox[k].event == s.outbox[k].event
  {
  }

  lemma TransferKeepsAgreement(s: State, transfer: Transfer)
    requires Agree(s)
    ensures Agree(ApplyTransfer(s, transfer))
  {
    TransferKeepsEvents(s, transfer);
    SameEventsAgree(s, ApplyTransfer(s, transfer));
  }

  lemma SameEventsAgree(s: State, s': State)
    requires Agree(s) && s'.executions == s.executions && s'.outbox.Keys == s.outbox.Keys
    requires forall k :: k in s.outbox ==> s'.outbox[k].event == s.outbox[k].event
    ensures Agree(s')
  {
    forall x | x in s'.executions ensures LifecycleOf(s'.outbox, x, s'.executions[x]) {
      assert LifecycleOf(s.outbox, x, s.executions[x]);
    }
  }

  predicate WritesNode(action: Action) { action.BeginNode? || action.EndNode? || action.FailNode? }

  predicate Guarded(action: Action) { action.Start? || action.Complete? || action.RecordFailure? }

  predicate Writes(action: Action) { Guarded(action) || action.Restate? || WritesNode(action) }

  /** Actions that persist nothing change only workers and commands. */
  lemma QuietActionsLeaveRows(s: State, w: nat, action: Action)
    requires !Writes(action)
    ensures var s' := ApplyWorker(s, w, action);
      s' == s.(workers := s'.workers, commands := s'.commands, nextCommand := s'.nextCommand)
  {
    match action { case _ => }
  }

  lemma WritesKeepAgreement(s: State, w: nat, action: Action)
    requires Writes(action) && Agree(s) && Custody(s.executions, s.workers, s.commands)
    ensures Agree(ApplyWorker(s, w, action))
  {
    match action {
      case Start(ok) => StartKeepsAgreement(s, w, ok);
      case Restate(ok) => RestateKeepsAgreement(s, w, ok);
      case BeginNode => NodeKeepsAgreement(s, w, NodeStarted, true);
      case EndNode(ok) => NodeKeepsAgreement(s, w, NodeCompleted, ok);
      case FailNode => NodeKeepsAgreement(s, w, NodeFailed, true);
      case Complete(ok) => CompleteKeepsAgreement(s, w, ok);
      case RecordFailure => FailureKeepsAgreement(s, w);
    }
  }

  lemma WorkerKeepsAgreement(s: State, w: nat, action: Action)
    requires Agree(s) && Custody(s.executions, s.workers, s.commands)
    ensures Agree(ApplyWorker(s, w, action))
  {
    if Writes(action) {
      WritesKeepAgreement(s, w, action);
    } else {
      QuietActionsLeaveRows(s, w, action);
    }
  }

  lemma StepKeepsAgreement(s: State, step: Step)
    requires Agree(s) && Custody(s.executions, s.workers, s.commands)
    ensures Agree(Apply(s, step))
  {
    match step {
      case CreateExecution(x, _) =>
        if x !in s.executions && ColonFree(x) { CreateKeepsLifecycle(s.executions, s.outbox, x); }
      case SubmitCommand(_, _) =>
      case Worker(w, action) => WorkerKeepsAgreement(s, w, action);
      case Delivery(transfer) => TransferKeepsAgreement(s, transfer);
    }
  }

  // ---- Workers and commands ----

  /** Executions stay known, leave PENDING for good, and never leave a terminal status. */
  ghost predicate Advances(executions: map<string, ExecutionStatus>, executions': map<string, ExecutionStatus>) {
    forall x :: x in executions ==>
      && x in executions'
      && (Terminal(executions[x]) ==> executions'[x] == executions[x])
      && (executions'[x].PENDING? ==> executions[x].PENDING?)
  }

  /** The same command, possibly somewhere else. */
  predicate SameCommand(k: Command, k': Command) { k'.(at := k.at) == k }

  /** A step that touches one worker and the place of the command it holds or fetches only has to be right
      about those. */
  lemma LocalStep(
      executions: map<string, ExecutionStatus>, executions': map<string, ExecutionStatus>,
      workers: map<nat, Phase>, commands: map<nat, Command>, w: nat, p: Phase, c: nat, k: Command)
    requires Custody(executions, workers, commands) && Advances(executions, executions')
    requires c in commands && SameCommand(commands[c], k)
    requires commands[c].at == Queued || commands[c].at == Held(w)
    requires w in workers && !workers[w].Idle? ==> workers[w].c == c
    requires PhaseOk(executions', commands[c := k], w, p)
    requires CommandOk(executions', workers[w := p], commands[c := k], c, k)
    ensures Custody(executions', workers[w := p], commands[c := k])
  {
    var workers', commands' := workers[w := p], commands[c := k];
    forall v | v in workers' ensures PhaseOk(executions', commands', v, workers'[v]) {
      if v != w { assert PhaseOk(executions, commands, v, workers[v]); }
    }
    forall b | b in commands' ensures CommandOk(executions', workers', commands', b, commands'[b]) {
      if b != c { assert CommandOk(executions, workers, commands, b, commands[b]); }
    }
  }

  /** A worker changing phase while it keeps its command. */
  lemma MoveKeepsCustody(s: State, executions': map<string, ExecutionStatus>, w: nat, p: Phase)
    requires Custody(s.executions, s.workers, s.commands) && Advances(s.executions, executions')
    requires !PhaseOf(s, w).Idle? && !p.Idle? && p.c == PhaseOf(s, w).c
    requires PhaseOk(executions', s.commands, w, p)
    ensures Custody(executions', s.workers[w := p], s.commands)
  {
    assert PhaseOk(s.executions, s.commands, w, s.workers[w]);
    assert CommandOk(s.executions, s.workers, s.commands, p.c, s.commands[p.c]);
    assert s.commands[p.c := s.commands[p.c]] == s.commands;
    LocalStep(s.executions, executions', s.workers, s.commands, w, p, p.c, s.commands[p.c]);
  }

  /** A worker letting go of its command: the command must be fit for where it goes. */
  lemma ReleaseKeepsCustody(s: State, executions': map<string, ExecutionStatus>, w: nat, at: Location)
    requires Custody(s.executions, s.workers, s.commands) && Advances(s.executions, executions')
    requires !PhaseOf(s, w).Idle? && PhaseOf(s, w).c in s.commands && !at.Held?
    requires at.Processed? || at.DeadLettered? ==> TerminalIn(executions', s.commands[PhaseOf(s, w).c].executionId)
    requires at.Superseded? ==> IsCopy(s.commands, s.commands[PhaseOf(s, w).c], at.copy)
    ensures var c := PhaseOf(s, w).c;
      Custody(executions', s.workers[w := Idle], s.commands[c := s.commands[c].(at := at)])
  {
    var c := PhaseOf(s, w).c;
    assert PhaseOk(s.executions, s.commands, w, s.workers[w]);
    assert CommandOk(s.executions, s.workers, s.commands, c, s.commands[c]);
    LocalStep(s.executions, executions', s.workers, s.commands, w, Idle, c, s.commands[c].(at := at));
  }

  ghost predicate InCustody(s: State) { Custody(s.executions, s.workers, s.commands) }

  lemma HolderFacts(s: State, w: nat)
    requires InCustody(s) && !PhaseOf(s, w).Idle?
    ensures PhaseOk(s.executions, s.commands, w, PhaseOf(s, w))
    ensures LadderOk(s.commands[PhaseOf(s, w).c])
  {
    assert PhaseOk(s.executions, s.commands, w, s.workers[w]);
    assert CommandOk(s.executions, s.workers, s.commands, s.workers[w].c, s.commands[s.workers[w].c]);
  }

  lemma FinishKeepsCustody(s: State, s1: State, w: nat, ok: bool)
    requires InCustody(s) && Advances(s.executions, s1.executions)
    requires s1.workers == s.workers && s1.commands == s.commands
    requires !PhaseOf(s, w).Idle? && PhaseOf(s, w).c in s.commands
    requires TerminalIn(s1.executions, s.commands[PhaseOf(s, w).c].executionId)
    ensures InCustody(Finish(s1, w, PhaseOf(s, w).c, ok))
  {
    HolderFacts(s, w);
    if ok {
      ReleaseKeepsCustody(s, s1.executions, w, Processed);
    } else {
      MoveKeepsCustody(s, s1.executions, w, Erring(PhaseOf(s, w).c, true));
    }
  }

  lemma DeliverKeepsCustody(s: State, w: nat, c: nat)
    requires InCustody(s)
    ensures InCustody(ApplyDeliver(s, w, c))
  {
    if PhaseOf(s, w).Idle? && c in s.commands && s.commands[c].at.Queued? {
      assert CommandOk(s.executions, s.workers, s.commands, c, s.commands[c]);
      LocalStep(s.executions, s.executions, s.workers, s.commands, w, Fetched(c), c, s.commands[c].(at := Held(w)));
    }
  }

  lemma LoadKeepsCustody(s: State, w: nat, ok: bool)
    requires InCustody(s)
    ensures InCustody(ApplyLoad(s, w, ok))
  {
    match PhaseOf(s, w) {
      case Fetched(c) =>
        HolderFacts(s, w);
        var x := s.commands[c].executionId;
        if !Knows(s, x) {
          MoveKeepsCustody(s, s.executions, w, Erring(c, false));
        } else if IsTerminal(s, x) {
          FinishKeepsCustody(s, s, w, ok);
        } else {
          MoveKeepsCustody(s, s.executions, w, Seen(c, s.executions[x]));
        }
      case _ =>
    }
  }

  lemma StartKeepsCustody(s: State, w: nat, rows: map<string, Row>, ok: bool)
    requires InCustody(s) && PhaseOf(s, w).Seen? && PhaseOf(s, w).c in s.commands
    ensures InCustody(StartWith(s, w, PhaseOf(s, w).c, rows, ok))
  {
    var c := PhaseOf(s, w).c;
    HolderFacts(s, w);
    var x := s.commands[c].executionId;
    if s.executions[x].PENDING? {
      MoveKeepsCustody(s, s.executions[x := RUNNING], w, Entered(c, ok));
    } else if IsTerminal(s, x) {
      FinishKeepsCustody(s, s, w, ok);
    } else {
      MoveKeepsCustody(s, s.executions, w, Entered(c, true));
    }
  }

  lemma CompleteKeepsCustody(s: State, w: nat, rows: map<string, Row>, ok: bool)
    requires InCustody(s) && PhaseOf(s, w).Executing? && PhaseOf(s, w).c in s.commands
    ensures InCustody(CompleteWith(s, w, PhaseOf(s, w).c, rows, ok))
  {
    var c := PhaseOf(s, w).c;
    HolderFacts(s, w);
    var x := s.commands[c].executionId;
    if s.executions[x].RUNNING? {
      FinishKeepsCustody(s, Persist(s.(executions := s.executions[x := SUCCEEDED]), rows), w, ok);
    } else if IsTerminal(s, x) {
      FinishKeepsCustody(s, s, w, ok);
    } else {
      MoveKeepsCustody(s, s.executions, w, Erring(c, true));
    }
  }

  lemma FailureKeepsCustody(s: State, w: nat, rows: map<string, Row>)
    requires InCustody(s) && PhaseOf(s, w).Erring? && PhaseOf(s, w).c in s.commands
    ensures InCustody(FailWith(s, w, PhaseOf(s, w).c, rows))
  {
    var c := PhaseOf(s, w).c;
    HolderFacts(s, w);
    var x := s.commands[c].executionId;
    if Knows(s, x) && (s.executions[x].PENDING? || s.executions[x].RUNNING?) {
      MoveKeepsCustody(s, s.executions[x := FAILED], w, Settled(c));
    } else if IsTerminal(s, x) {
      MoveKeepsCustody(s, s.executions, w, Settled(c));
    } else {
      ReleaseKeepsCustody(s, s.executions, w, Queued);
    }
  }

  lemma NodeKeepsCustody(s: State, w: nat, kind: Kind, ok: bool)
    requires InCustody(s) && IsNodeKind(kind)
    ensures InCustody(ApplyNode(s, w, kind, ok))
  {
    match PhaseOf(s, w) {
      case Executing(c, done, _) =>
        HolderFacts(s, w);
        MoveKeepsCustody(s, s.executions, w, NodePhase(c, done, kind, ok));
      case _ =>
    }
  }

  /** New executions and commands do not disturb custody. */
  lemma GrowthKeepsCustody(s: State, executions': map<string, ExecutionStatus>, c: nat, k: Command)
    requires InCustody(s) && Advances(s.executions, executions') && c !in s.commands
    requires k.at.Queued? && LadderOk(k)
    ensures Custody(executions', s.workers, s.commands[c := k])
  {
    var commands' := s.commands[c := k];
    forall v | v in s.workers ensures PhaseOk(executions', commands', v, s.workers[v]) {
      assert PhaseOk(s.executions, s.commands, v, s.workers[v]);
    }
    forall b | b in commands' ensures CommandOk(executions', s.workers, commands', b, commands'[b]) {
      if b != c { assert CommandOk(s.executions, s.workers, s.commands, b, s.commands[b]); }
    }
  }

  lemma EnqueueKeepsCustody(s: State, k: Command)
    requires InCustody(s) && Numbered(s.commands, s.nextCommand) && k.at.Queued? && LadderOk(k)
    ensures InCustody(Enqueue(s, k)) && Numbered(Enqueue(s, k).commands, Enqueue(s, k).nextCommand)
  {
    GrowthKeepsCustody(s, s.executions, s.nextCommand, k);
  }

  lemma LadderGoesOn(k: Command)
    requires LadderOk(k) && k.attempt < MAX_RETRY_ATTEMPTS
    ensures LadderOk(NextAttempt(k))
  {
  }

  lemma RetryKeepsCustody(s: State, w: nat)
    requires InCustody(s) && Numbered(s.commands, s.nextCommand)
    ensures InCustody(ApplyRetry(s, w)) && Numbered(ApplyRetry(s, w).commands, ApplyRetry(s, w).nextCommand)
  {
    match PhaseOf(s, w) {
      case Erring(c, retryable) =>
        HolderFacts(s, w);
        if Retries(retryable, s.commands[c].attempt) {
          LadderGoesOn(s.commands[c]);
          EnqueueKeepsCustody(s, NextAttempt(s.commands[c]));
          MoveKeepsCustody(Enqueue(s, NextAttempt(s.commands[c])), s.executions, w, Copied(c, s.nextCommand));
        }
      case _ =>
    }
  }

  lemma LeavingKeepsCustody(s: State, w: nat)
    requires InCustody(s)
    ensures InCustody(ApplyAckRetry(s, w)) && InCustody(ApplyDeadLetter(s, w))
    ensures InCustody(ApplyNack(s, w)) && InCustody(ApplyCrash(s, w))
  {
    var p := PhaseOf(s, w);
    if !p.Idle? {
      HolderFacts(s, w);
      ReleaseKeepsCustody(s, s.executions, w, Queued);
      if p.Copied? { ReleaseKeepsCustody(s, s.executions, w, Superseded(p.copy)); }
      if p.Settled? { ReleaseKeepsCustody(s, s.executions, w, DeadLettered); }
    }
  }

  lemma RaiseKeepsCustody(s: State, w: nat, retryable: bool)
    requires InCustody(s)
    ensures InCustody(ApplyRaise(s, w, retryable))
  {
    var p := PhaseOf(s, w);
    if !p.Idle? {
      HolderFacts(s, w);
      MoveKeepsCustody(s, s.executions, w, Erring(p.c, retryable));
    }
  }

  lemma RestateKeepsCustody(s: State, w: nat, ok: bool)
    requires InCustody(s)
    ensures InCustody(ApplyRestate(s, w, ok))
  {
    match PhaseOf(s, w) {
      case Seen(c, RUNNING) =>
        HolderFacts(s, w);
        MoveKeepsCustody(s, s.executions, w, Entered(c, ok));
      case _ =>
    }
  }

  /** The event a worker action may persist. */
  function PersistedBy(s: State, w: nat, action: Action): Event {
    match action
    case Start(_) => Event(WorkflowStarted, HeldExecution(s, w), "")
    case Restate(_) => Event(WorkflowStarted, HeldExecution(s, w), "")
    case BeginNode => Event(NodeStarted, HeldExecution(s, w), NextNode(s, w))
    case EndNode(_) => Event(NodeCompleted, HeldExecution(s, w), NextNode(s, w))
    case FailNode => Event(NodeFailed, HeldExecution(s, w), NextNode(s, w))
    case Complete(_) => Event(WorkflowCompleted, HeldExecution(s, w), "")
    case RecordFailure => Event(WorkflowFailed, HeldExecution(s, w), "")
    case _ => Event(WorkflowStarted, "", "")
  }

  function HeldExecution(s: State, w: nat): string {
    var p := PhaseOf(s, w);
    if !p.Idle? && p.c in s.commands then s.commands[p.c].executionId else ""
  }

  function NextNode(s: State, w: nat): string {
    var p, plan := PhaseOf(s, w), PlanOf(s, HeldExecution(s, w));
    if p.Executing? && plan.Nodes? && p.done < |plan.ids| then plan.ids[p.done] else ""
  }

  function RowsAfter(s: State, w: nat, action: Action): map<string, Row> {
    Upsert(s.outbox, PersistedBy(s, w, action), s.nextId)
  }

  lemma GuardedKeepsCustody(s: State, w: nat, action: Action)
    requires InCustody(s) && Guarded(action)
    ensures InCustody(ApplyWorker(s, w, action))
  {
    var p := PhaseOf(s, w);
    if !p.Idle? && p.c in s.commands {
      match action {
        case Start(ok) => if p.Seen? { StartKeepsCustody(s, w, RowsAfter(s, w, action), ok); }
        case Complete(ok) => if p.Executing? { CompleteKeepsCustody(s, w, RowsAfter(s, w, action), ok); }
        case RecordFailure => if p.Erring? { FailureKeepsCustody(s, w, RowsAfter(s, w, action)); }
      }
    }
  }

  lemma WorkerKeepsCustody(s: State, w: nat, action: Action)
    requires InCustody(s) && Numbered(s.commands, s.nextCommand)
    ensures InCustody(ApplyWorker(s, w, action))
  {
    match action {
      case Deliver(c) => DeliverKeepsCustody(s, w, c);
      case Load(ok) => LoadKeepsCustody(s, w, ok);
      case Start(_) => GuardedKeepsCustody(s, w, action);
      case Restate(ok) => RestateKeepsCustody(s, w, ok);
      case BeginNode => NodeKeepsCustody(s, w, NodeStarted, true);
      case EndNode(ok) => NodeKeepsCustody(s, w, NodeCompleted, ok);
      case FailNode => NodeKeepsCustody(s, w, NodeFailed, true);
      case Raise(retryable) => RaiseKeepsCustody(s, w, retryable);
      case Complete(_) => GuardedKeepsCustody(s, w, action);
      case Retry => RetryKeepsCustody(s, w);
      case AckRetry => LeavingKeepsCustody(s, w);
      case RecordFailure => GuardedKeepsCustody(s, w, action);
      case DeadLetter => LeavingKeepsCustody(s, w);
      case Nack => LeavingKeepsCustody(s, w);
      case Crash => LeavingKeepsCustody(s, w);
    }
  }

  /** Worker actions other than a retry add no commands. */
  lemma WorkerKeepsNumbers(s: State, w: nat, action: Action)
    requires Numbered(s.commands, s.nextCommand)
    ensures Numbered(ApplyWorker(s, w, action).commands, ApplyWorker(s, w, action).nextCommand)
  {
    if !action.Retry? {
      CommandsStay(s, w, action);
    }
  }

  predicate SameCommands(s: State, s': State) {
    s'.nextCommand == s.nextCommand && s'.commands.Keys == s.commands.Keys
  }

  lemma StartCommandsStay(s: State, w: nat, c: nat, rows: map<string, Row>, ok: bool)
    requires c in s.commands
    ensures SameCommands(s, StartWith(s, w, c, rows, ok))
  {
  }

  lemma CompleteCommandsStay(s: State, w: nat, c: nat, rows: map<string, Row>, ok: bool)
    requires c in s.commands
    ensures SameCommands(s, CompleteWith(s, w, c, rows, ok))
  {
  }

  lemma FailureCommandsStay(s: State, w: nat, c: nat, rows: map<string, Row>)
    requires c in s.commands
    ensures SameCommands(s, FailWith(s, w, c, rows))
  {
  }

  lemma CommandsStay(s: State, w: nat, action: Action)
    requires !action.Retry?
    ensures SameCommands(s, ApplyWorker(s, w, action))
  {
    if Guarded(action) {
      var p := PhaseOf(s, w);
      if !p.Idle? && p.c in s.commands {
        match action {
          case Start(ok) => StartCommandsStay(s, w, p.c, RowsAfter(s, w, action), ok);
          case Complete(ok) => CompleteCommandsStay(s, w, p.c, RowsAfter(s, w, action), ok);
          case RecordFailure => FailureCommandsStay(s, w, p.c, RowsAfter(s, w, action));
        }
      }
    } else if WritesNode(action) || action.Restate? {
    } else {
      match action { case _ => }
    }
  }

  lemma CreateKeepsCustody(s: State, x: string, plan: Plan)
    requires InCustody(s) && Numbered(s.commands, s.nextCommand)
    ensures var s' := Apply(s, CreateExecution(x, plan)); InCustody(s') && Numbered(s'.commands, s'.nextCommand)
  {
    if x !in s.executions {
      GrowthKeepsCustody(s, s.executions[x := PENDING], s.nextCommand, Command(x, 0, 0, 0, 0, Queued));
    }
  }

  lemma SubmitKeepsCustody(s: State, x: string, h: Header)
    requires InCustody(s) && Numbered(s.commands, s.nextCommand)
    ensures var s' := Apply(s, SubmitCommand(x, h)); InCustody(s') && Numbered(s'.commands, s'.nextCommand)
  {
    EnqueueKeepsCustody(s, Command(x, RetryAttempt(h), RetryAttempt(h), 0, 0, Queued));
  }

  lemma TransferKeepsCustody(s: State, transfer: Transfer)
    requires InCustody(s) && Numbered(s.commands, s.nextCommand)
    ensures var s' := ApplyTransfer(s, transfer); InCustody(s') && Numbered(s'.commands, s'.nextCommand)
  {
    TransferLeavesWork(s, transfer);
  }

  lemma StepKeepsCustody(s: State, step: Step)
    requires InCustody(s) && Numbered(s.commands, s.nextCommand)
    ensures InCustody(Apply(s, step)) && Numbered(Apply(s, step).commands, Apply(s, step).nextCommand)
  {
    match step {
      case CreateExecution(x, plan) => CreateKeepsCustody(s, x, plan);
      case SubmitCommand(x, h) => SubmitKeepsCustody(s, x, h);
      case Worker(w, action) =>
        WorkerKeepsCustody(s, w, action);
        WorkerKeepsNumbers(s, w, action);
      case Delivery(transfer) => TransferKeepsCustody(s, transfer);
    }
  }

  // ---- Rows, messages and the timeline ----

  ghost predicate Delivered(s: State) { DistinctIds(s.outbox, s.nextId) && Traced(s) && RowsOk(s) }

  /** Persisting an event under the next id keeps every row and everything traced to one. */
  lemma UpsertKeepsDelivery(s: State, s': State, e: Event)
    requires Delivered(s) && s'.outbox == Upsert(s.outbox, e, s.nextId) && s'.nextId == s.nextId + 1
    requires s'.bus == s.bus && s'.dispatches == s.dispatches && s'.timeline == s.timeline
    ensures Delivered(s')
  {
    assert forall f, id :: OnRow(s.outbox, f, id) ==> OnRow(s'.outbox, f, id);
    forall k | k in s'.outbox ensures RowOk(s', s'.outbox[k]) {
      if k in s.outbox { assert RowOk(s, s.outbox[k]); }
    }
  }

  lemma RewriteKeepsTrace(s: State, s': State)
    requires Delivered(s) && s'.outbox.Keys == s.outbox.Keys && s'.bus == s.bus && s'.timeline == s.timeline
    requires forall k :: k in s.outbox ==>
      s'.outbox[k].event == s.outbox[k].event && s'.outbox[k].eventId == s.outbox[k].eventId
    requires forall d :: d in s'.dispatches ==> d in s.dispatches && s'.dispatches[d] == s.dispatches[d]
    requires s'.nextId == s.nextId
    ensures DistinctIds(s'.outbox, s'.nextId) && Traced(s')
  {
    assert forall f, id :: OnRow(s.outbox, f, id) ==> OnRow(s'.outbox, f, id);
  }

  lemma PublishedKeepsDelivery(s: State, d: nat)
    requires Delivered(s)
    ensures Delivered(ApplyTransfer(s, MarkPublished(d)))
  {
    var s' := ApplyTransfer(s, MarkPublished(d));
    if s' != s {
      RewriteKeepsTrace(s, s');
      forall k | k in s'.outbox ensures RowOk(s', s'.outbox[k]) { assert RowOk(s, s.outbox[k]); }
    }
  }

  lemma FailedKeepsDelivery(s: State, d: nat)
    requires Delivered(s)
    ensures Delivered(ApplyTransfer(s, MarkFailed(d)))
  {
    var s' := ApplyTransfer(s, MarkFailed(d));
    if s' != s {
      RewriteKeepsTrace(s, s');
      var read := s.dispatches[d].row;
      forall k | k in s'.outbox ensures RowOk(s', s'.outbox[k]) {
        assert RowOk(s, s.outbox[k]);
        FailedRowOk(s, s.outbox[k], read);
        SameBusSameRows(s, s', s'.outbox[k]);
      }
      forall e | e in s'.dispatches ensures RowOk(s', s'.dispatches[e].row) {
        SameBusSameRows(s, s', s.dispatches[e].row);
      }
    }
  }

  lemma FailedRowOk(s: State, stored: Row, read: Row)
    requires RowOk(s, read) && !read.status.RowPublished?
    ensures RowOk(s, AfterFailedPublish(stored, read))
  {
  }

  lemma SameBusSameRows(s: State, s': State, row: Row)
    requires s'.bus == s.bus
    ensures RowOk(s, row) <==> RowOk(s', row)
  {
  }

  lemma BeginKeepsDelivery(s: State, d: nat, key: string)
    requires Delivered(s) && Keyed(s.executions, s.outbox)
    ensures Delivered(ApplyTransfer(s, BeginDispatch(d, key)))
  {
    var s' := ApplyTransfer(s, BeginDispatch(d, key));
    if s' != s {
      assert RowOk(s, s.outbox[key]) && OnRow(s.outbox, s.outbox[key].event, s.outbox[key].eventId);
      forall k | k in s'.outbox ensures RowOk(s', s'.outbox[k]) { SameBusSameRows(s, s', s.outbox[k]); }
      forall e | e in s'.dispatches ensures RowOk(s', s'.dispatches[e].row) {
        SameBusSameRows(s, s', s'.dispatches[e].row);
      }
    }
  }

  /** Sending the event of a row that was read: what is on the bus only grows, by that row's event. */
  lemma BusKeepsDelivery(s: State, d: nat)
    requires Delivered(s) && d in s.dispatches
    ensures Delivered(ApplyTransfer(s, PutOnBus(d)))
  {
    var s' := ApplyTransfer(s, PutOnBus(d));
    var row := s.dispatches[d].row;
    assert s' == s.(bus := s.bus + {Published(row.event, row.eventId)},
      dispatches := s.dispatches[d := Dispatch(row, true)]);
    assert forall r :: RowOk(s, r) ==> RowOk(s', r);
    assert forall e :: e in s'.dispatches ==> e in s.dispatches && s'.dispatches[e].row == s.dispatches[e].row;
  }

  lemma SameRowsKeepDelivery(s: State, s': State)
    requires Delivered(s) && s'.outbox == s.outbox && s'.bus == s.bus && s'.nextId == s.nextId
    requires forall d :: d in s'.dispatches ==> d in s.dispatches && s'.dispatches[d] == s.dispatches[d]
    requires forall id :: id in s'.timeline ==> OnRow(s.outbox, s'.timeline[id], id)
    ensures Delivered(s')
  {
    forall k | k in s'.outbox ensures RowOk(s', s'.outbox[k]) { assert RowOk(s, s.outbox[k]); }
    forall e | e in s'.dispatches ensures RowOk(s', s'.dispatches[e].row) { assert RowOk(s, s.dispatches[e].row); }
  }

  lemma AbandonKeepsDelivery(s: State, d: nat)
    requires Delivered(s)
    ensures Delivered(ApplyTransfer(s, AbandonDispatch(d)))
  {
    SameRowsKeepDelivery(s, ApplyTransfer(s, AbandonDispatch(d)));
  }

  lemma ConsumeKeepsDelivery(s: State, m: Published)
    requires Delivered(s)
    ensures Delivered(ApplyTransfer(s, Consume(m)))
  {
    SameRowsKeepDelivery(s, ApplyTransfer(s, Consume(m)));
  }

  lemma TransferKeepsDelivery(s: State, transfer: Transfer)
    requires Delivered(s) && Keyed(s.executions, s.outbox)
    ensures Delivered(ApplyTransfer(s, transfer))
  {
    match transfer {
      case BeginDispatch(d, key) => BeginKeepsDelivery(s, d, key);
      case PutOnBus(d) => if d in s.dispatches { BusKeepsDelivery(s, d); }
      case MarkPublished(d) => PublishedKeepsDelivery(s, d);
      case MarkFailed(d) => FailedKeepsDelivery(s, d);
      case AbandonDispatch(d) => AbandonKeepsDelivery(s, d);
      case Consume(m) => ConsumeKeepsDelivery(s, m);
    }
  }

  /** Nothing but rows has changed, and those only by persisting one event under the next id. */
  ghost predicate Persists(s: State, s': State, rows: map<string, Row>) {
    && s'.bus == s.bus && s'.dispatches == s.dispatches && s'.timeline == s.timeline
    && ((s'.outbox == s.outbox && s'.nextId == s.nextId) || (s'.outbox == rows && s'.nextId == s.nextId + 1))
  }

  lemma StartPersists(s: State, w: nat, c: nat, rows: map<string, Row>, ok: bool)
    requires c in s.commands
    ensures Persists(s, StartWith(s, w, c, rows, ok), rows)
  {
    FinishLeavesRows(s, w, c, ok);
  }

  lemma CompletePersists(s: State, w: nat, c: nat, rows: map<string, Row>, ok: bool)
    requires c in s.commands
    ensures Persists(s, CompleteWith(s, w, c, rows, ok), rows)
  {
    FinishLeavesRows(s, w, c, ok);
    var x := s.commands[c].executionId;
    FinishLeavesRows(Persist(s.(executions := s.executions[x := SUCCEEDED]), rows), w, c, ok);
  }

  lemma FinishLeavesRows(s: State, w: nat, c: nat, ok: bool)
    requires c in s.commands
    ensures var s' := Finish(s, w, c, ok); s' == s.(workers := s'.workers, commands := s'.commands)
  {
  }

  lemma FailurePersists(s: State, w: nat, c: nat, rows: map<string, Row>)
    requires c in s.commands
    ensures Persists(s, FailWith(s, w, c, rows), rows)
  {
    ReleaseLeavesRows(s, w, c, Queued);
  }

  lemma ReleaseLeavesRows(s: State, w: nat, c: nat, at: Location)
    requires c in s.commands
    ensures var s' := Release(s, w, c, at); s' == s.(workers := s'.workers, commands := s'.commands)
  {
  }

  lemma NodePersists(s: State, w: nat, action: Action)
    requires WritesNode(action)
    ensures Persists(s, ApplyWorker(s, w, action), RowsAfter(s, w, action))
  {
  }

  /** Worker actions touch rows only by persisting an event under the next id. */
  lemma WorkerPersists(s: State, w: nat, action: Action)
    ensures Persists(s, ApplyWorker(s, w, action), RowsAfter(s, w, action))
  {
    if !Writes(action) {
      QuietActionsLeaveRows(s, w, action);
    } else if Guarded(action) {
      GuardedPersists(s, w, action);
    } else if WritesNode(action) {
      NodePersists(s, w, action);
    }
  }

  lemma GuardedPersists(s: State, w: nat, action: Action)
    requires Guarded(action)
    ensures Persists(s, ApplyWorker(s, w, action), RowsAfter(s, w, action))
  {
    var p := PhaseOf(s, w);
    if !p.Idle? && p.c in s.commands {
      match action {
        case Start(ok) => StartPersists(s, w, p.c, RowsAfter(s, w, action), ok);
        case Complete(ok) => CompletePersists(s, w, p.c, RowsAfter(s, w, action), ok);
        case RecordFailure => FailurePersists(s, w, p.c, RowsAfter(s, w, action));
      }
    }
  }

  lemma WorkerKeepsDelivery(s: State, w: nat, action: Action)
    requires Delivered(s)
    ensures Delivered(ApplyWorker(s, w, action))
  {
    WorkerPersists(s, w, action);
    var s' := ApplyWorker(s, w, action);
    if s'.nextId == s.nextId {
      SameRowsKeepDelivery(s, s');
    } else {
      UpsertKeepsDelivery(s, s', PersistedBy(s, w, action));
    }
  }

  lemma StepKeepsDelivery(s: State, step: Step)
    requires Delivered(s) && Keyed(s.executions, s.outbox)
    ensures Delivered(Apply(s, step))
  {
    match step {
      case Delivery(transfer) => TransferKeepsDelivery(s, transfer);
      case Worker(w, action) => WorkerKeepsDelivery(s, w, action);
      case _ => GrowthKeepsDelivery(s, step);
    }
  }

  lemma GrowthKeepsDelivery(s: State, step: Step)
    requires Delivered(s) && (step.CreateExecution? || step.SubmitCommand?)
    ensures Delivered(Apply(s, step))
  {
    SameRowsKeepDelivery(s, Apply(s, step));
  }

  // ---- Nodes ----

  lemma RowsStayRan(outbox: map<string, Row>, outbox': map<string, Row>, x: string, plan: Plan, done: nat, begun: bool)
    requires outbox.Keys <= outbox'.Keys
    ensures RanSoFar(outbox, x, plan, done, begun) ==> RanSoFar(outbox', x, plan, done, begun)
    ensures RanAll(outbox, x, plan) ==> RanAll(outbox', x, plan)
  {
    assert forall kind, n :: NodeRow(outbox, kind, x, n) ==> NodeRow(outbox', kind, x, n);
  }

  /** Rows, executions and commands are only ever added to, and commands keep their execution. */
  ghost predicate Grows(s: State, s': State) {
    && s.outbox.Keys <= s'.outbox.Keys
    && s'.plans.Keys == s'.executions.Keys
    && (forall x :: x in s.plans ==> x in s'.plans && s'.plans[x] == s.plans[x])
    && (forall c :: c in s.commands ==> c in s'.commands && s'.commands[c].executionId == s.commands[c].executionId)
  }

  /** A step by worker `w` only has to be right about that worker, and about an execution that has succeeded. */
  lemma ProgressStep(s: State, s': State, w: nat, y: string)
    requires Progress(s) && Grows(s, s')
    requires forall v :: v in s'.workers && v != w ==> v in s.workers && s'.workers[v] == s.workers[v]
    requires w in s'.workers ==> WorkerProgress(s'.plans, s'.outbox, s'.commands, s'.workers[w])
    requires forall x :: x in s'.executions && s'.executions[x].SUCCEEDED? && x != y ==>
      x in s.executions && s.executions[x].SUCCEEDED?
    requires y in s'.executions && s'.executions[y].SUCCEEDED? ==>
      (y in s.executions && s.executions[y].SUCCEEDED?) || RanAll(s'.outbox, y, s'.plans[y])
    ensures Progress(s')
  {
    forall v | v in s'.workers && v != w ensures WorkerProgress(s'.plans, s'.outbox, s'.commands, s'.workers[v]) {
      var p := s.workers[v];
      if p.Executing? {
        var x := s.commands[p.c].executionId;
        RowsStayRan(s.outbox, s'.outbox, x, s.plans[x], p.done, p.begun);
      }
    }
    forall x | x in s'.executions && s'.executions[x].SUCCEEDED? ensures RanAll(s'.outbox, x, s'.plans[x]) {
      if x in s.executions && s.executions[x].SUCCEEDED? { RowsStayRan(s.outbox, s'.outbox, x, s.plans[x], 0, false); }
    }
  }

  /** The rows and the phase after a node event. */
  lemma NodeGoesOn(
      outbox: map<string, Row>, x: string, plan: Plan, done: nat, begun: bool, kind: Kind, id: nat, ok: bool)
    requires IsNodeKind(kind) && begun != kind.NodeStarted? && plan.Nodes? && done < |plan.ids|
    requires RanSoFar(outbox, x, plan, done, begun)
    ensures var p := NodePhase(0, done, kind, ok);
      RanSoFar(Upsert(outbox, Event(kind, x, plan.ids[done]), id), x, plan, p.done, p.begun)
  {
    var outbox' := Upsert(outbox, Event(kind, x, plan.ids[done]), id);
    assert NodeRow(outbox', kind, x, plan.ids[done]);
    RowsStayRan(outbox, outbox', x, plan, done, begun);
  }

  lemma NodeKeepsProgress(s: State, w: nat, kind: Kind, ok: bool)
    requires Progress(s) && IsNodeKind(kind)
    ensures Progress(ApplyNode(s, w, kind, ok))
  {
    var s' := ApplyNode(s, w, kind, ok);
    match PhaseOf(s, w) {
      case Executing(c, done, begun) =>
        if s' != s {
          var x := s.commands[c].executionId;
          assert WorkerProgress(s.plans, s.outbox, s.commands, s.workers[w]);
          NodeGoesOn(s.outbox, x, s.plans[x], done, begun, kind, s.nextId, ok);
          ProgressStep(s, s', w, x);
        }
      case _ =>
    }
  }

  /** A guarded transaction on the execution of command `c`, which worker `w` holds. */
  ghost predicate Transacts(s: State, s': State, w: nat, c: nat, rows: map<string, Row>)
    requires c in s.commands
  {
    && s'.plans == s.plans && s'.executions.Keys == s.executions.Keys
    && (s'.outbox == s.outbox || s'.outbox == rows)
    && (forall x :: x in s.executions && x != s.commands[c].executionId ==> s'.executions[x] == s.executions[x])
    && (forall v :: v in s'.workers && v != w ==> v in s.workers && s'.workers[v] == s.workers[v])
    && (w in s'.workers && s'.workers[w].Executing? ==> s'.workers[w] == Executing(c, 0, false))
    && (forall b :: b in s.commands ==> b in s'.commands && SameCommand(s.commands[b], s'.commands[b]))
  }

  lemma FinishTransacts(s: State, s1: State, w: nat, c: nat, ok: bool, rows: map<string, Row>)
    requires c in s.commands && s1.plans == s.plans && s1.workers == s.workers && s1.commands == s.commands
    requires s1.executions.Keys == s.executions.Keys && (s1.outbox == s.outbox || s1.outbox == rows)
    requires forall x :: x in s.executions && x != s.commands[c].executionId ==> s1.executions[x] == s.executions[x]
    ensures Transacts(s, Finish(s1, w, c, ok), w, c, rows)
  {
  }

  lemma MoveTransacts(s: State, s1: State, w: nat, c: nat, p: Phase, rows: map<string, Row>)
    requires c in s.commands && s1.plans == s.plans && s1.workers == s.workers && s1.commands == s.commands
    requires s1.executions.Keys == s.executions.Keys && (s1.outbox == s.outbox || s1.outbox == rows)
    requires forall x :: x in s.executions && x != s.commands[c].executionId ==> s1.executions[x] == s.executions[x]
    requires p.Executing? ==> p == Executing(c, 0, false)
    ensures Transacts(s, Move(s1, w, p), w, c, rows)
  {
  }

  lemma TransactionKeepsProgress(s: State, s': State, w: nat, c: nat, rows: map<string, Row>)
    requires Progress(s) && c in s.commands && s.outbox.Keys <= rows.Keys && Transacts(s, s', w, c, rows)
    requires s.commands[c].executionId in s.executions
    requires var x := s.commands[c].executionId;
      s'.executions[x].SUCCEEDED? ==> s.executions[x].SUCCEEDED? || RanAll(s'.outbox, x, s.plans[x])
    ensures Progress(s')
  {
    ProgressStep(s, s', w, s.commands[c].executionId);
  }

  lemma StartKeepsProgress(s: State, w: nat, c: nat, rows: map<string, Row>, ok: bool)
    requires Progress(s) && c in s.commands && s.outbox.Keys <= rows.Keys && Knows(s, s.commands[c].executionId)
    ensures Progress(StartWith(s, w, c, rows, ok))
  {
    var x := s.commands[c].executionId;
    if s.executions[x].PENDING? {
      MoveTransacts(s, Persist(s.(executions := s.executions[x := RUNNING]), rows), w, c, Entered(c, ok), rows);
    } else if IsTerminal(s, x) {
      FinishTransacts(s, s, w, c, ok, rows);
    } else {
      MoveTransacts(s, s, w, c, Entered(c, true), rows);
    }
    TransactionKeepsProgress(s, StartWith(s, w, c, rows, ok), w, c, rows);
  }

  lemma CompleteKeepsProgress(s: State, w: nat, rows: map<string, Row>, ok: bool)
    requires Progress(s) && PhaseOf(s, w).Executing? && PhaseOf(s, w).c in s.commands && s.outbox.Keys <= rows.Keys
    requires !PhaseOf(s, w).begun
    requires Done(PlanOf(s, s.commands[PhaseOf(s, w).c].executionId), PhaseOf(s, w).done)
    ensures Progress(CompleteWith(s, w, PhaseOf(s, w).c, rows, ok))
  {
    var p := PhaseOf(s, w);
    var x := s.commands[p.c].executionId;
    assert WorkerProgress(s.plans, s.outbox, s.commands, s.workers[w]);
    assert RanAll(s.outbox, x, s.plans[x]);
    RowsStayRan(s.outbox, rows, x, s.plans[x], 0, false);
    if s.executions[x].RUNNING? {
      FinishTransacts(s, Persist(s.(executions := s.executions[x := SUCCEEDED]), rows), w, p.c, ok, rows);
    } else if IsTerminal(s, x) {
      FinishTransacts(s, s, w, p.c, ok, rows);
    } else {
      MoveTransacts(s, s, w, p.c, Erring(p.c, true), rows);
    }
    TransactionKeepsProgress(s, CompleteWith(s, w, p.c, rows, ok), w, p.c, rows);
  }

  lemma FailureKeepsProgress(s: State, w: nat, c: nat, rows: map<string, Row>)
    requires Progress(s) && c in s.commands && s.outbox.Keys <= rows.Keys
    ensures Progress(FailWith(s, w, c, rows))
  {
    var x := s.commands[c].executionId;
    if Knows(s, x) {
      var s1 := if Terminal(s.executions[x]) then s else Persist(s.(executions := s.executions[x := FAILED]), rows);
      MoveTransacts(s, s1, w, c, Settled(c), rows);
      TransactionKeepsProgress(s, FailWith(s, w, c, rows), w, c, rows);
    } else {
      ProgressStep(s, Release(s, w, c, Queued), w, "");
    }
  }

  lemma GuardedKeepsProgress(s: State, w: nat, action: Action)
    requires Progress(s) && Guarded(action) && InCustody(s)
    ensures Progress(ApplyWorker(s, w, action))
  {
    var p := PhaseOf(s, w);
    if !p.Idle? {
      HolderFacts(s, w);
      match action {
        case Start(ok) => if p.Seen? { StartKeepsProgress(s, w, p.c, RowsAfter(s, w, action), ok); }
        case Complete(ok) =>
          if p.Executing? && !p.begun && Done(PlanOf(s, s.commands[p.c].executionId), p.done) {
            CompleteKeepsProgress(s, w, RowsAfter(s, w, action), ok);
          }
        case RecordFailure => FailureKeepsProgress(s, w, p.c, RowsAfter(s, w, action));
      }
    }
  }

  /** Everything else leaves nodes alone: a worker that is executing afterwards was so before. */
  lemma QuietKeepsProgress(s: State, w: nat, action: Action)
    requires Progress(s) && InCustody(s) && !Guarded(action) && !WritesNode(action) && !action.Retry?
    ensures Progress(ApplyWorker(s, w, action))
  {
    WorkerPersists(s, w, action);
    QuietActionsMoveOn(s, w, action);
    if !PhaseOf(s, w).Idle? { HolderFacts(s, w); }
    MovingOnKeepsProgress(s, ApplyWorker(s, w, action), w);
  }

  lemma MovingOnKeepsProgress(s: State, s': State, w: nat)
    requires Progress(s) && MovesOn(s, s', w) && s.outbox.Keys <= s'.outbox.Keys
    requires PhaseOf(s, w).Seen? ==>
      PhaseOf(s, w).c in s.commands && s.commands[PhaseOf(s, w).c].executionId in s.executions
    ensures Progress(s')
  {
    if w in s.workers && s.workers[w].Executing? {
      assert WorkerProgress(s.plans, s.outbox, s.commands, s.workers[w]);
      var p := s.workers[w];
      var x := s.commands[p.c].executionId;
      RowsStayRan(s.outbox, s'.outbox, x, s.plans[x], p.done, p.begun);
    }
    ProgressStep(s, s', w, "");
  }

  /** Apart from rows, only the worker and places of commands change, and no node is done or begun. */
  ghost predicate MovesOn(s: State, s': State, w: nat) {
    && s'.executions == s.executions && s'.plans == s.plans
    && (forall v :: v in s'.workers && v != w ==> v in s.workers && s'.workers[v] == s.workers[v])
    && (forall c :: c in s.commands ==> c in s'.commands && s'.commands[c].executionId == s.commands[c].executionId)
    && (w in s'.workers && s'.workers[w].Executing? ==>
          || (w in s.workers && s'.workers[w] == s.workers[w])
          || (s'.workers[w].done == 0 && !s'.workers[w].begun && w in s.workers && s.workers[w].Seen?
              && s'.workers[w].c == s.workers[w].c))
  }

  predicate LetsGo(action: Action) { action.AckRetry? || action.DeadLetter? || action.Nack? || action.Crash? }

  lemma LettingGoMovesOn(s: State, w: nat, action: Action)
    requires LetsGo(action)
    ensures MovesOn(s, ApplyWorker(s, w, action), w)
  {
    var p := PhaseOf(s, w);
    SameMovesOn(s, w);
    if !p.Idle? && p.c in s.commands {
      ReleaseMovesOn(s, w, p.c, Queued);
      ReleaseMovesOn(s, w, p.c, DeadLettered);
      if p.Copied? { ReleaseMovesOn(s, w, p.c, Superseded(p.copy)); }
    }
  }

  lemma SameMovesOn(s: State, w: nat)
    ensures MovesOn(s, s, w)
  {
  }

  lemma ReleaseMovesOn(s: State, w: nat, c: nat, at: Location)
    requires c in s.commands
    ensures MovesOn(s, Release(s, w, c, at), w)
  {
  }

  lemma DeliverMovesOn(s: State, w: nat, c: nat)
    ensures MovesOn(s, ApplyDeliver(s, w, c), w)
  {
  }

  lemma RestateMovesOn(s: State, w: nat, ok: bool)
    ensures MovesOn(s, ApplyRestate(s, w, ok), w)
  {
  }

  lemma RaiseMovesOn(s: State, w: nat, retryable: bool)
    ensures MovesOn(s, ApplyRaise(s, w, retryable), w)
  {
    SameMovesOn(s, w);
    var p := PhaseOf(s, w);
    if !p.Idle? { MoveMovesOn(s, w, Erring(p.c, retryable)); }
  }

  lemma FinishMovesOn(s: State, w: nat, c: nat, ok: bool)
    requires c in s.commands
    ensures MovesOn(s, Finish(s, w, c, ok), w)
  {
  }

  lemma LoadMovesOn(s: State, w: nat, ok: bool)
    ensures MovesOn(s, ApplyLoad(s, w, ok), w)
  {
    match PhaseOf(s, w) {
      case Fetched(c) =>
        if c in s.commands {
          FinishMovesOn(s, w, c, ok);
          MoveMovesOn(s, w, Erring(c, false));
          if Knows(s, s.commands[c].executionId) {
            MoveMovesOn(s, w, Seen(c, s.executions[s.commands[c].executionId]));
          }
        }
      case _ =>
    }
  }

  lemma MoveMovesOn(s: State, w: nat, p: Phase)
    requires !p.Executing?
    ensures MovesOn(s, Move(s, w, p), w)
  {
  }

  lemma QuietActionsMoveOn(s: State, w: nat, action: Action)
    requires !Guarded(action) && !WritesNode(action) && !action.Retry?
    ensures MovesOn(s, ApplyWorker(s, w, action), w)
  {
    if LetsGo(action) {
      LettingGoMovesOn(s, w, action);
    } else {
      match action {
        case Deliver(c) => DeliverMovesOn(s, w, c);
        case Load(ok) => LoadMovesOn(s, w, ok);
        case Restate(ok) => RestateMovesOn(s, w, ok);
        case Raise(retryable) => RaiseMovesOn(s, w, retryable);
      }
    }
  }

  lemma RetryKeepsProgress(s: State, w: nat)
    requires Progress(s) && Numbered(s.commands, s.nextCommand)
    ensures Progress(ApplyRetry(s, w))
  {
    ProgressStep(s, ApplyRetry(s, w), w, "");
  }

  lemma StepKeepsProgress(s: State, step: Step)
    requires Progress(s) && Numbered(s.commands, s.nextCommand) && InCustody(s)
    ensures Progress(Apply(s, step))
  {
    match step {
      case Worker(w, action) =>
        if Guarded(action) {
          GuardedKeepsProgress(s, w, action);
        } else if action.Retry? {
          RetryKeepsProgress(s, w);
        } else if !WritesNode(action) {
          QuietKeepsProgress(s, w, action);
        } else {
          match action {
            case BeginNode => NodeKeepsProgress(s, w, NodeStarted, true);
            case EndNode(ok) => NodeKeepsProgress(s, w, NodeCompleted, ok);
            case FailNode => NodeKeepsProgress(s, w, NodeFailed, true);
          }
        }
      case Delivery(transfer) => TransferKeepsProgress(s, transfer);
      case _ => GrowthKeepsProgress(s, step);
    }
  }

  lemma TransferKeepsProgress(s: State, transfer: Transfer)
    requires Progress(s)
    ensures Progress(ApplyTransfer(s, transfer))
  {
    TransferKeepsEvents(s, transfer);
    var s' := ApplyTransfer(s, transfer);
    TransferLeavesWork(s, transfer);
    if 0 in s.workers && s.workers[0].Executing? {
      assert WorkerProgress(s.plans, s.outbox, s.commands, s.workers[0]);
      var p := s.workers[0];
      var x := s.commands[p.c].executionId;
      RowsStayRan(s.outbox, s'.outbox, x, s.plans[x], p.done, p.begun);
    }
    ProgressStep(s, s', 0, "");
  }

  lemma TransferLeavesWork(s: State, transfer: Transfer)
    ensures var s' := ApplyTransfer(s, transfer);
      && s'.executions == s.executions && s'.plans == s.plans
      && s'.workers == s.workers && s'.commands == s.commands && s'.nextCommand == s.nextCommand
  {
  }

  lemma GrowthKeepsProgress(s: State, step: Step)
    requires Progress(s) && Numbered(s.commands, s.nextCommand) && (step.CreateExecution? || step.SubmitCommand?)
    ensures Progress(Apply(s, step))
  {
    var s' := Apply(s, step);
    if s' != s {
      assert Grows(s, s');
      if 0 in s.workers { assert WorkerProgress(s.plans, s.outbox, s.commands, s.workers[0]); }
      ProgressStep(s, s', 0, "");
    }
  }

  // ---- Every run ----

  lemma StepKeepsInv(s: State, step: Step)
    requires Inv(s)
    ensures Inv(Apply(s, step))
  {
    StepKeepsAgreement(s, step);
    StepKeepsCustody(s, step);
    StepKeepsDelivery(s, step);
    StepKeepsProgress(s, step);
  }

  lemma {:induction false} RunKeepsInv(steps: seq<Step>)
    ensures Inv(Run(INITIAL, steps))
  {
    if steps != [] {
      RunKeepsInv(steps[..|steps| - 1]);
      StepKeepsInv(Run(INITIAL, steps[..|steps| - 1]), steps[|steps| - 1]);
    }
  }
}
