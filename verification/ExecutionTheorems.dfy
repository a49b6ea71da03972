/** Safety of whole runs of the execution protocol. */
module ExecutionTheorems {
  import opened WorkflowGraph
  import opened WorkflowValidator
  import opened NodeOrdering
  import opened ExecutionProtocol
  import opened ExecutionInvariants

  /** Whatever the interleaving: a completed row exists exactly when the execution has succeeded, a failed
      row exactly when it has failed, and a running or succeeded execution has its started row. */
  lemma RowsTellTheStatus(steps: seq<Step>, x: string)
    requires x in Run(INITIAL, steps).executions
    ensures var s := Run(INITIAL, steps);
      && (Has(s.outbox, WorkflowCompleted, x) <==> s.executions[x].SUCCEEDED?)
      && (Has(s.outbox, WorkflowFailed, x) <==> s.executions[x].FAILED?)
      && (s.executions[x].RUNNING? || s.executions[x].SUCCEEDED? ==> Has(s.outbox, WorkflowStarted, x))
      && (Has(s.outbox, WorkflowStarted, x) ==> !s.executions[x].PENDING?)
  {
    RunKeepsInv(steps);
    assert LifecycleOf(Run(INITIAL, steps).outbox, x, Run(INITIAL, steps).executions[x]);
  }

  /** An execution that has succeeded has run every node of its plan: each has its started and its completed
      row, whichever workers wrote them. */
  lemma SucceededRanItsPlan(steps: seq<Step>, x: string)
    requires x in Run(INITIAL, steps).executions && Run(INITIAL, steps).executions[x].SUCCEEDED?
    ensures RanAll(Run(INITIAL, steps).outbox, x, PlanOf(Run(INITIAL, steps), x))
  {
    RunKeepsInv(steps);
  }

  /** The plan of a definition: its nodes in an execution order, if it is accepted. */
  ghost predicate IsPlanOf(d: Definition, plan: Plan) {
    match plan
    case Invalid => !Accepted(d)
    case Nodes(ids) => Accepted(d) && exists order :: IsExecutionOrder(d, order) && ids == IdList(order)
  }

  /** Parsing and ordering a stored definition gives its plan: the worker does it when it executes the nodes, and
      a version's definition does not change. */
  method MakePlan(d: Definition) returns (plan: Plan)
    ensures IsPlanOf(d, plan)
  {
    var success := Parse(d);
    if !success {
      return Invalid;
    }
    AcceptedIsOrderable(d);
    var order := OrderWorkflowNodes(d);
    return Nodes(IdList(order.nodes));
  }

  /** So an execution of a definition succeeds only if the definition is accepted, and then every node of it has
      completed. */
  lemma SucceededRanItsDefinition(steps: seq<Step>, x: string, d: Definition)
    requires x in Run(INITIAL, steps).executions && Run(INITIAL, steps).executions[x].SUCCEEDED?
    requires IsPlanOf(d, PlanOf(Run(INITIAL, steps), x))
    ensures Accepted(d)
    ensures forall n :: n in NodeIds(d.nodes) ==>
      && NodeRow(Run(INITIAL, steps).outbox, NodeStarted, x, n)
      && NodeRow(Run(INITIAL, steps).outbox, NodeCompleted, x, n)
  {
    SucceededRanItsPlan(steps, x);
    var plan := PlanOf(Run(INITIAL, steps), x);
    var order :| IsExecutionOrder(d, order) && plan.ids == IdList(order);
    forall n | n in NodeIds(d.nodes) ensures exists i :: 0 <= i < |plan.ids| && plan.ids[i] == n {
      var j :| 0 <= j < |d.nodes| && d.nodes[j].id == n;
      assert d.nodes[j] in multiset(order);
      var i :| 0 <= i < |order| && order[i] == d.nodes[j];
      assert IdList(order)[i] == n;
    }
  }

  // ---- Terminal statuses ----

  lemma StartAdvances(s: State, w: nat, c: nat, rows: map<string, Row>, ok: bool)
    requires c in s.commands
    ensures Advances(s.executions, StartWith(s, w, c, rows, ok).executions)
  {
    FinishLeavesRows(s, w, c, ok);
  }

  lemma CompleteAdvances(s: State, w: nat, c: nat, rows: map<string, Row>, ok: bool)
    requires c in s.commands
    ensures Advances(s.executions, CompleteWith(s, w, c, rows, ok).executions)
  {
    var x := s.commands[c].executionId;
    FinishLeavesRows(s, w, c, ok);
    FinishLeavesRows(Persist(s.(executions := s.executions[x := SUCCEEDED]), rows), w, c, ok);
  }

  lemma FailureAdvances(s: State, w: nat, c: nat, rows: map<string, Row>)
    requires c in s.commands
    ensures Advances(s.executions, FailWith(s, w, c, rows).executions)
  {
    ReleaseLeavesRows(s, w, c, Queued);
  }

  lemma GuardedAdvances(s: State, w: nat, action: Action)
    requires Guarded(action)
    ensures Advances(s.executions, ApplyWorker(s, w, action).executions)
  {
    var p := PhaseOf(s, w);
    if !p.Idle? && p.c in s.commands {
      match action {
        case Start(ok) => StartAdvances(s, w, p.c, RowsAfter(s, w, action), ok);
        case Complete(ok) => CompleteAdvances(s, w, p.c, RowsAfter(s, w, action), ok);
        case RecordFailure => FailureAdvances(s, w, p.c, RowsAfter(s, w, action));
      }
    }
  }

  lemma WorkerAdvances(s: State, w: nat, action: Action)
    ensures Advances(s.executions, ApplyWorker(s, w, action).executions)
  {
    if !Writes(action) {
      QuietActionsLeaveRows(s, w, action);
    } else if Guarded(action) {
      GuardedAdvances(s, w, action);
    } else {
      assert ApplyWorker(s, w, action).executions == s.executions;
    }
  }

  lemma StatusesAdvance(s: State, step: Step)
    ensures Advances(s.executions, Apply(s, step).executions)
  {
    match step {
      case Worker(w, action) => WorkerAdvances(s, w, action);
      case _ =>
    }
  }

  /** A terminal status is final: no continuation of any run changes it. */
  lemma {:induction false} TerminalForever(s: State, steps: seq<Step>, x: string)
    requires x in s.executions && Terminal(s.executions[x])
    ensures x in Run(s, steps).executions && Run(s, steps).executions[x] == s.executions[x]
  {
    if steps != [] {
      TerminalForever(s, steps[..|steps| - 1], x);
      StatusesAdvance(Run(s, steps[..|steps| - 1]), steps[|steps| - 1]);
    }
  }

  // ---- The timeline ----

  /** However often events are published and redelivered, the timeline holds one row per event (per execution
      and kind, and per node for node events) and never both a completion and a failure of one execution. */
  lemma TimelineHasNoDuplicates(steps: seq<Step>, a: nat, b: nat)
    requires a in Run(INITIAL, steps).timeline && b in Run(INITIAL, steps).timeline
    ensures var t := Run(INITIAL, steps).timeline;
      && (t[a] == t[b] ==> a == b)
      && !(t[a].kind.WorkflowCompleted? && t[b].kind.WorkflowFailed? && t[a].executionId == t[b].executionId)
  {
    RunKeepsInv(steps);
    var s := Run(INITIAL, steps);
    var ea, eb := s.timeline[a], s.timeline[b];
    assert OnRow(s.outbox, ea, a) && OnRow(s.outbox, eb, b);
    NeverBoth(s, ea.executionId);
  }

  /** The message was on the bus when a consumer took it, at some point of the run. */
  ghost predicate WasConsumed(steps: seq<Step>, m: Published) {
    steps != [] &&
      (WasConsumed(steps[..|steps| - 1], m)
       || (steps[|steps| - 1] == Delivery(Consume(m)) && m in Run(INITIAL, steps[..|steps| - 1]).bus))
  }

  predicate OnTimeline(s: State, m: Published) { m.eventId in s.timeline && s.timeline[m.eventId] == m.event }

  /** An event id belongs to one event, on the bus and on the timeline. */
  lemma IdTellsEvent(s: State, m: Published)
    requires Inv(s) && m in s.bus
    ensures m.event.executionId in s.executions
    ensures m.eventId in s.timeline ==> s.timeline[m.eventId] == m.event
  {
    assert OnRow(s.outbox, m.event, m.eventId);
    if m.eventId in s.timeline { assert OnRow(s.outbox, s.timeline[m.eventId], m.eventId); }
  }

  lemma ConsumptionRecords(s: State, taken: Published, m: Published)
    requires taken in s.bus ==> taken.event.executionId in s.executions
    requires taken in s.bus && taken.eventId in s.timeline ==> s.timeline[taken.eventId] == taken.event
    ensures OnTimeline(ApplyTransfer(s, Consume(taken)), m) <==> OnTimeline(s, m) || (taken == m && m in s.bus)
  {
  }

  lemma OtherTransfersRecordNothing(s: State, transfer: Transfer)
    requires !transfer.Consume?
    ensures ApplyTransfer(s, transfer).timeline == s.timeline
  {
  }

  lemma StepRecordsExactly(s: State, step: Step, m: Published)
    requires Inv(s)
    ensures OnTimeline(Apply(s, step), m) <==> OnTimeline(s, m) || (step == Delivery(Consume(m)) && m in s.bus)
  {
    match step {
      case Worker(w, action) => WorkerPersists(s, w, action);
      case Delivery(transfer) =>
        if transfer.Consume? {
          if transfer.message in s.bus { IdTellsEvent(s, transfer.message); }
          ConsumptionRecords(s, transfer.message, m);
        } else {
          OtherTransfersRecordNothing(s, transfer);
        }
      case _ =>
    }
  }

  /** The timeline holds exactly what has been consumed: an event is on it, under its id, if and only if some consumer
      has taken it from the bus. So an event consumed however often has its one row, and keeps it for good. */
  lemma {:induction false} TimelineExactly(steps: seq<Step>, m: Published)
    ensures OnTimeline(Run(INITIAL, steps), m) <==> WasConsumed(steps, m)
  {
    if steps != [] {
      TimelineExactly(steps[..|steps| - 1], m);
      RunKeepsInv(steps[..|steps| - 1]);
      StepRecordsExactly(Run(INITIAL, steps[..|steps| - 1]), steps[|steps| - 1], m);
    }
  }

  lemma {:induction false} RunOn(s: State, steps: seq<Step>, more: seq<Step>)
    ensures Run(s, steps + more) == Run(Run(s, steps), more)
  {
    if more == [] {
      assert steps + more == steps;
    } else {
      assert (steps + more)[..|steps + more| - 1] == steps + more[..|more| - 1];
      RunOn(s, steps, more[..|more| - 1]);
    }
  }

  /** After any run, consuming a message that is on the bus puts its event on the timeline, and no continuation takes
      or changes that row or adds another one for the event. */
  lemma ConsumedForGood(steps: seq<Step>, m: Published, more: seq<Step>)
    requires m in Run(INITIAL, steps).bus
    ensures var t := Run(INITIAL, steps + [Delivery(Consume(m))] + more).timeline;
      && m.eventId in t && t[m.eventId] == m.event
      && forall id :: id in t && t[id] == m.event ==> id == m.eventId
  {
    var consumed := steps + [Delivery(Consume(m))];
    var all := consumed + more;
    assert consumed[..|consumed| - 1] == steps;
    assert WasConsumed(consumed, m);
    StaysConsumed(consumed, more, m);
    TimelineExactly(all, m);
    forall id | id in Run(INITIAL, all).timeline && Run(INITIAL, all).timeline[id] == m.event ensures id == m.eventId {
      TimelineHasNoDuplicates(all, id, m.eventId);
    }
  }

  lemma {:induction false} StaysConsumed(steps: seq<Step>, more: seq<Step>, m: Published)
    requires WasConsumed(steps, m)
    ensures WasConsumed(steps + more, m)
  {
    if more == [] {
      assert steps + more == steps;
    } else {
      assert (steps + more)[..|steps + more| - 1] == steps + more[..|more| - 1];
      StaysConsumed(steps, more[..|more| - 1], m);
    }
  }

  lemma NeverBoth(s: State, x: string)
    requires Inv(s) && x in s.executions
    ensures !(Has(s.outbox, WorkflowCompleted, x) && Has(s.outbox, WorkflowFailed, x))
  {
    assert LifecycleOf(s.outbox, x, s.executions[x]);
  }

  // ---- Commands ----

  /** No valid command is lost: it waits in a queue, is held by exactly the worker that works on it, has left
      with its execution terminal, or has been replaced by a copy with the next attempt header. */
  lemma CommandsAreAccountedFor(steps: seq<Step>, c: nat)
    requires c in Run(INITIAL, steps).commands
    ensures var s := Run(INITIAL, steps); var k := s.commands[c];
      && (k.at.Held? <==> exists w :: w in s.workers && !s.workers[w].Idle? && s.workers[w].c == c)
      && (forall w :: w in s.workers && !s.workers[w].Idle? && s.workers[w].c == c ==> k.at == Held(w))
      && (k.at.Processed? || k.at.DeadLettered? ==> IsTerminal(s, k.executionId))
      && (k.at.Superseded? ==> IsCopy(s.commands, k, k.at.copy))
  {
    RunKeepsInv(steps);
    var s := Run(INITIAL, steps);
    assert CommandOk(s.executions, s.workers, s.commands, c, s.commands[c]);
    forall w | w in s.workers && !s.workers[w].Idle? && s.workers[w].c == c ensures s.commands[c].at == Held(w) {
      assert PhaseOk(s.executions, s.commands, w, s.workers[w]);
    }
  }

  /** A command followed by the copies that have taken its place, one after the other. */
  ghost predicate IsLine(commands: map<nat, Command>, line: seq<nat>) {
    && line != [] && (forall i :: 0 <= i < |line| ==> line[i] in commands)
    && (forall i :: 0 <= i < |line| - 1 ==>
          commands[line[i]].at == Superseded(line[i + 1]) && IsCopy(commands, commands[line[i]], line[i + 1]))
  }

  /** Whatever happens to a command, the line of its retries ends with one that still waits, is worked on, or has
      left with the execution terminal. */
  lemma {:induction false} LinesAreNeverLost(steps: seq<Step>, c: nat) returns (line: seq<nat>)
    requires c in Run(INITIAL, steps).commands
    ensures var s := Run(INITIAL, steps);
      && IsLine(s.commands, line) && line[0] == c
      && var last := s.commands[line[|line| - 1]];
         && last.executionId == s.commands[c].executionId && !last.at.Superseded?
         && (last.at.Queued? || last.at.Held? || IsTerminal(s, last.executionId))
    decreases MAX_RETRY_ATTEMPTS - Run(INITIAL, steps).commands[c].attempt
  {
    CommandsAreAccountedFor(steps, c);
    var commands := Run(INITIAL, steps).commands;
    if commands[c].at.Superseded? {
      var rest := LinesAreNeverLost(steps, commands[c].at.copy);
      line := [c] + rest;
      LineGrows(commands, c, rest);
    } else {
      line := [c];
    }
  }

  lemma LineGrows(commands: map<nat, Command>, c: nat, rest: seq<nat>)
    requires c in commands && IsLine(commands, rest) && commands[c].at == Superseded(rest[0])
    requires IsCopy(commands, commands[c], rest[0])
    ensures IsLine(commands, [c] + rest)
  {
    var line := [c] + rest;
    forall i | 0 <= i < |line| - 1
      ensures commands[line[i]].at == Superseded(line[i + 1]) && IsCopy(commands, commands[line[i]], line[i + 1])
    {
      if i > 0 { assert line[i] == rest[i - 1] && line[i + 1] == rest[i]; }
    }
  }

  /** The retry ladder: along a line at most three republications, counted by the attempt header, each with
      its queue, after 10, 60 and 300 seconds of waiting; crashes between publishing and acknowledging included. */
  lemma RetriesAreBounded(steps: seq<Step>, c: nat)
    requires c in Run(INITIAL, steps).commands
    ensures var k := Run(INITIAL, steps).commands[c];
      && k.attempt == k.firstAttempt + k.republished
      && k.republished <= MAX_RETRY_ATTEMPTS
      && (k.republished > 0 ==> 1 <= k.attempt <= |RETRY_TTLS_MS|)
      && k.delayMs == Waited(k.firstAttempt, k.attempt, 1, 10_000) + Waited(k.firstAttempt, k.attempt, 2, 60_000)
        + Waited(k.firstAttempt, k.attempt, 3, 300_000)
      && k.delayMs <= 370_000
  {
    RunKeepsInv(steps);
    var s := Run(INITIAL, steps);
    var k := s.commands[c];
    assert CommandOk(s.executions, s.workers, s.commands, c, k);
    if k.republished > 0 { TtlBound(k.firstAttempt, k.attempt); }
  }

  /** The delay that is due before attempt `n`, if a line that began at `first` has come to that attempt. */
  function Waited(first: nat, attempt: nat, n: nat, ms: nat): nat { if first < n <= attempt then ms else 0 }

  lemma TtlBound(from: nat, to: nat)
    requires to <= 3
    ensures TotalTtl(from, to)
      == Waited(from, to, 1, 10_000) + Waited(from, to, 2, 60_000) + Waited(from, to, 3, 300_000)
  {
    assert TotalTtl(from, 0) == 0;
    assert to >= 1 ==> TotalTtl(from, 1) == Waited(from, 1, 1, 10_000);
    assert to >= 2 ==> TotalTtl(from, 2) == (if 2 <= from then 0 else TotalTtl(from, 1) + 60_000);
    assert to == 3 ==> TotalTtl(from, 3) == (if 3 <= from then 0 else TotalTtl(from, 2) + 300_000);
  }

  /** A command whose execution does not exist never leaves: it is neither acknowledged as processed nor
      dead-lettered. */
  lemma UnknownExecutionIsRequeued(steps: seq<Step>, c: nat)
    requires c in Run(INITIAL, steps).commands
    requires Run(INITIAL, steps).commands[c].executionId !in Run(INITIAL, steps).executions
    ensures var at := Run(INITIAL, steps).commands[c].at; at.Queued? || at.Held? || at.Superseded?
  {
    CommandsAreAccountedFor(steps, c);
  }

  // ---- Outbox rows ----

  /** Outbox rows: pending means publishing attempts are left, so the batch filter strands no row; published
      means the event went out, under the row's own event id. */
  lemma OutboxRowsAreSound(steps: seq<Step>, k: string)
    requires k in Run(INITIAL, steps).outbox
    ensures var s := Run(INITIAL, steps); var row := s.outbox[k];
      && (row.status.RowPending? ==> row.attempts < MAX_PUBLISH_ATTEMPTS)
      && (row.status.RowPublished? ==> Published(row.event, row.eventId) in s.bus)
      && (forall m :: m in s.bus && m.event == row.event ==> m.eventId == row.eventId)
  {
    RunKeepsInv(steps);
    var s := Run(INITIAL, steps);
    assert RowOk(s, s.outbox[k]);
    forall m | m in s.bus && m.event == s.outbox[k].event ensures m.eventId == s.outbox[k].eventId {
      assert OnRow(s.outbox, m.event, m.eventId);
    }
  }

  /** A dispatch that is not disturbed publishes its row and charges it one attempt, and then the event can be consumed:
      from every state of every run, four steps put the event of any unpublished row on the timeline, under its id. */
  lemma RowsReachTheTimeline(s: State, k: string, d: nat)
    requires Inv(s) && k in s.outbox && !s.outbox[k].status.RowPublished? && d !in s.dispatches
    ensures var row := s.outbox[k]; var m := Published(row.event, row.eventId);
      var s' := Run(s, [Delivery(BeginDispatch(d, k)), Delivery(PutOnBus(d)), Delivery(MarkPublished(d)),
                        Delivery(Consume(m))]);
      && OnTimeline(s', m) && m in s'.bus
      && k in s'.outbox && s'.outbox[k] == row.(status := RowPublished, attempts := row.attempts + 1)
  {
    RowTellsEvent(s, k);
    FourSteps(s, k, d);
  }

  lemma RowTellsEvent(s: State, k: string)
    requires Inv(s) && k in s.outbox
    ensures var row := s.outbox[k];
      && k == Key(row.event) && row.event.executionId in s.executions
      && (row.eventId in s.timeline ==> s.timeline[row.eventId] == row.event)
  {
    var id := s.outbox[k].eventId;
    if id in s.timeline { assert OnRow(s.outbox, s.timeline[id], id); }
  }

  lemma FourSteps(s: State, k: string, d: nat)
    requires k in s.outbox && k == Key(s.outbox[k].event) && !s.outbox[k].status.RowPublished? && d !in s.dispatches
    requires s.outbox[k].event.executionId in s.executions
    requires s.outbox[k].eventId in s.timeline ==> s.timeline[s.outbox[k].eventId] == s.outbox[k].event
    ensures var row := s.outbox[k]; var m := Published(row.event, row.eventId);
      var s' := Run(s, [Delivery(BeginDispatch(d, k)), Delivery(PutOnBus(d)), Delivery(MarkPublished(d)),
                        Delivery(Consume(m))]);
      && OnTimeline(s', m) && m in s'.bus
      && k in s'.outbox && s'.outbox[k] == row.(status := RowPublished, attempts := row.attempts + 1)
  {
    var row := s.outbox[k];
    var m := Published(row.event, row.eventId);
    RunFour(s, Delivery(BeginDispatch(d, k)), Delivery(PutOnBus(d)), Delivery(MarkPublished(d)), Delivery(Consume(m)));
    var s3 := ApplyTransfer(ApplyTransfer(ApplyTransfer(s, BeginDispatch(d, k)), PutOnBus(d)), MarkPublished(d));
    UndisturbedDispatch(s, k, d);
    ConsumptionRecords(s3, m, m);
  }

  lemma UndisturbedDispatch(s: State, k: string, d: nat)
    requires k in s.outbox && k == Key(s.outbox[k].event) && !s.outbox[k].status.RowPublished? && d !in s.dispatches
    ensures var row := s.outbox[k];
      var s' := ApplyTransfer(ApplyTransfer(ApplyTransfer(s, BeginDispatch(d, k)), PutOnBus(d)), MarkPublished(d));
      && Published(row.event, row.eventId) in s'.bus && s'.timeline == s.timeline && s'.executions == s.executions
      && s'.outbox == s.outbox[k := row.(status := RowPublished, attempts := row.attempts + 1)]
  {
    var row := s.outbox[k];
    var s1 := s.(dispatches := s.dispatches[d := Dispatch(row, false)]);
    assert ApplyTransfer(s, BeginDispatch(d, k)) == s1;
    var s2 := s1.(bus := s.bus + {Published(row.event, row.eventId)},
                  dispatches := s1.dispatches[d := Dispatch(row, true)]);
    assert ApplyTransfer(s1, PutOnBus(d)) == s2;
  }

  /** A publication that fails charges the row one attempt, and it has failed for good exactly at the fifth. */
  lemma FailedPublicationIsCharged(s: State, k: string, d: nat)
    requires Inv(s) && k in s.outbox && s.outbox[k].status.RowPending? && d !in s.dispatches
    ensures var row := s.outbox[k];
      var s' := Run(s, [Delivery(BeginDispatch(d, k)), Delivery(MarkFailed(d))]);
      && s'.bus == s.bus && k in s'.outbox
      && s'.outbox[k] == row.(status := if row.attempts == 4 then RowFailed else RowPending,
                              attempts := row.attempts + 1)
  {
    PendingHasAttempts(s, k);
    TwoSteps(s, k, d);
  }

  lemma PendingHasAttempts(s: State, k: string)
    requires Inv(s) && k in s.outbox
    ensures k == Key(s.outbox[k].event) && (s.outbox[k].status.RowPending? ==> s.outbox[k].attempts < 5)
  {
    assert RowOk(s, s.outbox[k]);
  }

  lemma TwoSteps(s: State, k: string, d: nat)
    requires k in s.outbox && k == Key(s.outbox[k].event) && d !in s.dispatches
    requires s.outbox[k].status.RowPending? && s.outbox[k].attempts < 5
    ensures var row := s.outbox[k];
      var s' := Run(s, [Delivery(BeginDispatch(d, k)), Delivery(MarkFailed(d))]);
      && s'.bus == s.bus && k in s'.outbox
      && s'.outbox[k] == row.(status := if row.attempts == 4 then RowFailed else RowPending,
                              attempts := row.attempts + 1)
  {
    var a, b := Delivery(BeginDispatch(d, k)), Delivery(MarkFailed(d));
    RunOne(s, a);
    assert [a, b][..1] == [a] && Run(s, [a, b]) == Apply(Apply(s, a), b);
    var s1 := s.(dispatches := s.dispatches[d := Dispatch(s.outbox[k], false)]);
    assert Apply(s, a) == s1;
  }

  lemma RunFour(s: State, a: Step, b: Step, c: Step, d: Step)
    ensures Run(s, [a, b, c, d]) == Apply(Apply(Apply(Apply(s, a), b), c), d)
  {
    RunOne(s, a);
    assert [a, b][..1] == [a] && Run(s, [a, b]) == Apply(Apply(s, a), b);
    assert [a, b, c][..2] == [a, b] && Run(s, [a, b, c]) == Apply(Run(s, [a, b]), c);
    assert [a, b, c, d][..3] == [a, b, c];
  }

  // ---- PUBLISHED is not final ----

  predicate IsPublished(s: State, k: string) { k in s.outbox && s.outbox[k].status.RowPublished? }

  /** Somebody is at work on a reading of row `k`. */
  ghost predicate BeingDispatched(s: State, k: string) {
    exists d :: d in s.dispatches && Key(s.dispatches[d].row.event) == k
  }

  lemma WorkLeavesPublished(s: State, s': State, e: Event, k: string)
    requires IsPublished(s, k) && !BeingDispatched(s, k) && s'.dispatches == s.dispatches
    requires s'.outbox == s.outbox || s'.outbox == Upsert(s.outbox, e, s.nextId)
    ensures IsPublished(s', k) && !BeingDispatched(s', k)
  {
  }

  lemma TransferLeavesPublished(s: State, transfer: Transfer, k: string)
    requires IsPublished(s, k) && !BeingDispatched(s, k)
    requires transfer.BeginDispatch? && transfer.key in s.outbox ==> Key(s.outbox[transfer.key].event) == transfer.key
    ensures IsPublished(ApplyTransfer(s, transfer), k) && !BeingDispatched(ApplyTransfer(s, transfer), k)
  {
    match transfer { case _ => }
  }

  lemma UnreadStaysPublished(s: State, step: Step, k: string)
    requires IsPublished(s, k) && !BeingDispatched(s, k)
    requires forall key :: key in s.outbox ==> Key(s.outbox[key].event) == key
    ensures IsPublished(Apply(s, step), k) && !BeingDispatched(Apply(s, step), k)
  {
    match step {
      case Worker(w, action) =>
        WorkerPersists(s, w, action);
        WorkLeavesPublished(s, Apply(s, step), PersistedBy(s, w, action), k);
      case Delivery(transfer) => TransferLeavesPublished(s, transfer, k);
      case _ => WorkLeavesPublished(s, Apply(s, step), Event(WorkflowStarted, "", ""), k);
    }
  }

  lemma {:induction false} UnreadStaysPublishedAlong(s: State, steps: seq<Step>, k: string)
    requires Inv(s) && IsPublished(s, k) && !BeingDispatched(s, k)
    ensures Inv(Run(s, steps)) && IsPublished(Run(s, steps), k) && !BeingDispatched(Run(s, steps), k)
  {
    if steps != [] {
      var before := Run(s, steps[..|steps| - 1]);
      UnreadStaysPublishedAlong(s, steps[..|steps| - 1], k);
      StepKeepsInv(before, steps[|steps| - 1]);
      UnreadStaysPublished(before, steps[|steps| - 1], k);
    }
  }

  lemma RunOne(s: State, step: Step)
    ensures Run(s, [step]) == Apply(s, step)
  {
    assert [step][..0] == [];
    assert Run(s, []) == s;
  }

  lemma StaleFailureTakesBack(s: State, k: string, d: nat)
    requires Inv(s) && IsPublished(s, k) && d in s.dispatches && Key(s.dispatches[d].row.event) == k
    ensures !IsPublished(Apply(s, Delivery(MarkFailed(d))), k)
  {
  }

  /** A published row is published for good exactly when no dispatch is at work on an earlier reading of it. */
  lemma PublishedForGoodExactly(s: State, k: string)
    requires Inv(s) && IsPublished(s, k)
    ensures (forall steps :: IsPublished(Run(s, steps), k)) <==> !BeingDispatched(s, k)
  {
    if !BeingDispatched(s, k) {
      forall steps ensures IsPublished(Run(s, steps), k) { UnreadStaysPublishedAlong(s, steps, k); }
    } else {
      var d :| d in s.dispatches && Key(s.dispatches[d].row.event) == k;
      StaleFailureTakesBack(s, k, d);
      RunOne(s, Delivery(MarkFailed(d)));
    }
  }

  // ---- A history in which it is taken back ----

  ghost predicate Reachable(s: State) { exists steps :: Run(INITIAL, steps) == s }

  lemma ReachableStep(s: State, step: Step)
    requires Reachable(s)
    ensures Reachable(Apply(s, step))
  {
    var steps :| Run(INITIAL, steps) == s;
    assert (steps + [step])[..|steps|] == steps;
    assert Run(INITIAL, steps + [step]) == Apply(s, step);
  }

  /** The failure of dispatch `d` sets a published row back to pending. */
  ghost predicate TakesBack(s: State, k: string, d: nat) {
    var s' := Apply(s, Delivery(MarkFailed(d)));
    Reachable(s) && IsPublished(s, k) && k in s'.outbox && s'.outbox[k].status.RowPending?
  }

  const ONE_NODE := Nodes(["n"])

  /** A worker has started execution `x`; `rows` and the rest is what has come of its started event. */
  function Started(x: string, rows: map<string, Row>, bus: set<Published>, dispatches: map<nat, Dispatch>): State {
    State(map[x := RUNNING], map[x := ONE_NODE], rows, bus, map[], dispatches,
          map[0 := Executing(0, 0, false)], map[0 := Command(x, 0, 0, 0, 0, Held(0))], 1, 1)
  }

  /** Execution `x` is pending, and worker 0 has got this far with its command. */
  function Waiting(x: string, at: Location, workers: map<nat, Phase>): State {
    State(map[x := PENDING], map[x := ONE_NODE], map[], {}, map[], map[], workers,
          map[0 := Command(x, 0, 0, 0, 0, at)], 0, 1)
  }

  lemma WaitingIsReachable(x: string)
    requires ColonFree(x)
    ensures Reachable(Waiting(x, Queued, map[]))
  {
    assert Run(INITIAL, []) == INITIAL;
    ReachableStep(INITIAL, CreateExecution(x, ONE_NODE));
    assert Apply(INITIAL, CreateExecution(x, ONE_NODE)) == Waiting(x, Queued, map[]);
  }

  lemma LoadedIsReachable(x: string)
    requires ColonFree(x)
    ensures Reachable(Waiting(x, Held(0), map[0 := Seen(0, PENDING)]))
  {
    WaitingIsReachable(x);
    var fetched := Waiting(x, Held(0), map[0 := Fetched(0)]);
    ReachableStep(Waiting(x, Queued, map[]), Worker(0, Deliver(0)));
    assert ApplyDeliver(Waiting(x, Queued, map[]), 0, 0) == fetched;
    ReachableStep(fetched, Worker(0, Load(true)));
    assert ApplyLoad(fetched, 0, true) == Waiting(x, Held(0), map[0 := Seen(0, PENDING)]);
  }

  lemma StartedIsReachable(x: string, e: Event)
    requires ColonFree(x) && e == Event(WorkflowStarted, x, "")
    ensures Reachable(Started(x, map[Key(e) := Row(e, 0, RowPending, 0)], {}, map[]))
  {
    LoadedIsReachable(x);
    var loaded := Waiting(x, Held(0), map[0 := Seen(0, PENDING)]);
    ReachableStep(loaded, Worker(0, Start(true)));
    var rows := Upsert(map[], e, 0);
    assert ApplyStart(loaded, 0, true) == StartWith(loaded, 0, 0, rows, true);
    assert StartWith(loaded, 0, 0, rows, true) == Started(x, rows, {}, map[]);
  }

  /** Two dispatches of the same pending row: the first publishes it, the second fails and sets it back. */
  lemma PublishedCanBeTakenBack(x: string)
    requires ColonFree(x)
    ensures exists s, k, d :: TakesBack(s, k, d)
  {
    var e := Event(WorkflowStarted, x, "");
    var k, row := Key(e), Row(e, 0, RowPending, 0);
    StartedIsReachable(x, e);
    var s0 := Started(x, map[k := row], {}, map[]);
    ReachableStep(s0, Delivery(BeginDispatch(0, k)));
    var s1 := Started(x, map[k := row], {}, map[0 := Dispatch(row, false)]);
    assert Apply(s0, Delivery(BeginDispatch(0, k))) == s1;
    ReachableStep(s1, Delivery(BeginDispatch(1, k)));
    var s2 := Started(x, map[k := row], {}, map[0 := Dispatch(row, false), 1 := Dispatch(row, false)]);
    assert Apply(s1, Delivery(BeginDispatch(1, k))) == s2;
    OverlapTakesBack(x, k, row, s2);
  }

  lemma OverlapTakesBack(x: string, k: string, row: Row, s2: State)
    requires k == Key(row.event) && row == Row(row.event, 0, RowPending, 0) && Reachable(s2)
    requires s2 == Started(x, map[k := row], {}, map[0 := Dispatch(row, false), 1 := Dispatch(row, false)])
    ensures exists s, d :: TakesBack(s, k, d)
  {
    ReachableStep(s2, Delivery(PutOnBus(0)));
    var s3 := ApplyTransfer(s2, PutOnBus(0));
    ReachableStep(s3, Delivery(MarkPublished(0)));
    var s4 := ApplyTransfer(s3, MarkPublished(0));
    assert IsPublished(s4, k) && s4.dispatches == map[1 := Dispatch(row, false)];
    assert TakesBack(s4, k, 1);
  }

  // ---- A history to the end ----

  /** Reachable, with the worker at this point of its one node. */
  ghost predicate WorkingOn(s: State, x: string, done: nat, begun: bool) {
    && Reachable(s) && s.executions == map[x := RUNNING] && s.plans == map[x := ONE_NODE]
    && s.workers == map[0 := Executing(0, done, begun)] && s.commands == map[0 := Command(x, 0, 0, 0, 0, Held(0))]
    && s.dispatches == map[]
  }

  lemma NodeRuns(x: string, s: State)
    requires WorkingOn(s, x, 0, false)
    ensures exists s' :: WorkingOn(s', x, 1, false)
  {
    var s1 := ApplyNode(s, 0, NodeStarted, true);
    ReachableStep(s, Worker(0, BeginNode));
    var s2 := ApplyNode(s1, 0, NodeCompleted, true);
    ReachableStep(s1, Worker(0, EndNode(true)));
    assert WorkingOn(s2, x, 1, false);
  }

  lemma {:induction false} ReachableInv(s: State)
    requires Reachable(s)
    ensures Inv(s)
  {
    var steps :| Run(INITIAL, steps) == s;
    RunKeepsInv(steps);
  }

  lemma {:induction false} ReachableRun(s: State, steps: seq<Step>)
    requires Reachable(s)
    ensures Reachable(Run(s, steps))
  {
    var before :| Run(INITIAL, before) == s;
    RunOn(INITIAL, before, steps);
  }

  /** The execution has succeeded and its completion is on the timeline. */
  ghost predicate RecordsCompletion(s: State, x: string, id: nat) {
    && Reachable(s) && x in s.executions && s.executions[x].SUCCEEDED?
    && OnTimeline(s, Published(Event(WorkflowCompleted, x, ""), id))
  }

  /** A run from the start, for every execution id: the execution is created, started, runs its node and succeeds, and
      its completed event is published and ends up on the timeline. */
  lemma CompletionIsRecorded(x: string)
    requires ColonFree(x)
    ensures exists s, id :: RecordsCompletion(s, x, id)
  {
    var started := Event(WorkflowStarted, x, "");
    StartedIsReachable(x, started);
    var s0 := Started(x, map[Key(started) := Row(started, 0, RowPending, 0)], {}, map[]);
    assert WorkingOn(s0, x, 0, false);
    NodeRuns(x, s0);
    var s1 :| WorkingOn(s1, x, 1, false);
    CompletedRowIsRecorded(x, s1);
  }

  /** The completing transaction after the one node. */
  lemma CompletionIsWritten(x: string, s: State)
    requires WorkingOn(s, x, 1, false) && Key(Event(WorkflowCompleted, x, "")) !in s.outbox
    ensures var e := Event(WorkflowCompleted, x, ""); var s' := ApplyComplete(s, 0, true);
      && s'.executions == map[x := SUCCEEDED] && s'.dispatches == map[]
      && s'.outbox == s.outbox[Key(e) := Row(e, s.nextId, RowPending, 0)]
  {
    var e := Event(WorkflowCompleted, x, "");
    var rows := s.outbox[Key(e) := Row(e, s.nextId, RowPending, 0)];
    assert ApplyComplete(s, 0, true) == CompleteWith(s, 0, 0, rows, true);
    assert s.executions[x := SUCCEEDED] == map[x := SUCCEEDED];
    FinishLeavesRows(Persist(s.(executions := s.executions[x := SUCCEEDED]), rows), 0, 0, true);
  }

  lemma RunningIsNotCompleted(s: State, x: string)
    requires Reachable(s) && x in s.executions && s.executions[x].RUNNING?
    ensures Key(Event(WorkflowCompleted, x, "")) !in s.outbox
  {
    ReachableInv(s);
    assert LifecycleOf(s.outbox, x, s.executions[x]);
  }

  lemma CompletedRowIsRecorded(x: string, s: State)
    requires WorkingOn(s, x, 1, false)
    ensures exists s', id :: RecordsCompletion(s', x, id)
  {
    RunningIsNotCompleted(s, x);
    CompletionIsWritten(x, s);
    ReachableStep(s, Worker(0, Complete(true)));
    assert Apply(s, Worker(0, Complete(true))) == ApplyComplete(s, 0, true);
    PendingCompletionIsRecorded(x, ApplyComplete(s, 0, true), s.nextId);
  }

  lemma ReachableRowReachesTheTimeline(s: State, k: string, d: nat)
    requires Reachable(s) && k in s.outbox && !s.outbox[k].status.RowPublished? && d !in s.dispatches
    ensures var m := Published(s.outbox[k].event, s.outbox[k].eventId);
      OnTimeline(Run(s, [Delivery(BeginDispatch(d, k)), Delivery(PutOnBus(d)), Delivery(MarkPublished(d)),
                         Delivery(Consume(m))]), m)
  {
    ReachableInv(s);
    RowsReachTheTimeline(s, k, d);
  }

  lemma PendingCompletionIsRecorded(x: string, s: State, id: nat)
    requires Reachable(s) && x in s.executions && s.executions[x].SUCCEEDED? && s.dispatches == map[]
    requires var e := Event(WorkflowCompleted, x, "");
      Key(e) in s.outbox && s.outbox[Key(e)] == Row(e, id, RowPending, 0)
    ensures exists s' :: RecordsCompletion(s', x, id)
  {
    var e := Event(WorkflowCompleted, x, "");
    ReachableRowReachesTheTimeline(s, Key(e), 0);
    var steps := [Delivery(BeginDispatch(0, Key(e))), Delivery(PutOnBus(0)), Delivery(MarkPublished(0)),
                  Delivery(Consume(Published(e, id)))];
    ReachableRun(s, steps);
    TerminalForever(s, steps, x);
    assert RecordsCompletion(Run(s, steps), x, id);
  }
}
