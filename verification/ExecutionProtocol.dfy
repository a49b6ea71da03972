/** The execution protocol: any number of workers, dispatch activities and timeline consumers acting on
    shared executions, outbox rows and published events (apps/execution-worker/src/index.ts and
    apps/workflow-service/src/index.ts). Every step is one transaction, or one read or write. */
module ExecutionProtocol {

  const MAX_PUBLISH_ATTEMPTS := 5
  const MAX_RETRY_ATTEMPTS := 3
  const RETRY_TTLS_MS: seq<nat> := [10_000, 60_000, 300_000]

  // ---- Lifecycle events and their idempotency keys ----

  datatype Kind =
    | WorkflowStarted | WorkflowCompleted | WorkflowFailed
    | NodeStarted | NodeCompleted | NodeFailed

  predicate IsNodeKind(k: Kind) { k.NodeStarted? || k.NodeCompleted? || k.NodeFailed? }

  /** `nodeId` is empty for workflow events. */
  datatype Event = Event(kind: Kind, executionId: string, nodeId: string)

  predicate ColonFree(s: string) { ':' !in s }

  predicate WellFormed(e: Event) {
    ColonFree(e.executionId) && (!IsNodeKind(e.kind) ==> e.nodeId == "")
  }

  function EventName(k: Kind): string {
    match k
    case WorkflowStarted => "workflow.execution.started"
    case WorkflowCompleted => "workflow.execution.completed"
    case WorkflowFailed => "workflow.execution.failed"
    case NodeStarted => "workflow.node.execution.started"
    case NodeCompleted => "workflow.node.execution.completed"
    case NodeFailed => "workflow.node.execution.failed"
  }

  /** `workflow.execution.started:<execution>` or `workflow.node.execution.started:<execution>:<node>`. */
  function Key(e: Event): string { EventName(e.kind) + ":" + Subject(e) }

  function Subject(e: Event): string {
    if IsNodeKind(e.kind) then e.executionId + ":" + e.nodeId else e.executionId
  }

  /** The first colon of a string splits it in one way only. */
  lemma {:induction false} FirstColon(a: string, b: string, a': string, b': string)
    requires ColonFree(a) && ColonFree(a') && a + ":" + b == a' + ":" + b'
    ensures a == a' && b == b'
  {
    var s := a + ":" + b;
    assert s[|a|] == ':' && s[|a'|] == ':';
    if |a| != |a'| {
      assert false;
    }
    assert a == s[..|a|] == a' && b == s[|a| + 1..] == b';
  }

  lemma NamesDiffer(k: Kind, k': Kind)
    ensures ColonFree(EventName(k)) && (EventName(k) == EventName(k') ==> k == k')
  {
    var n, n' := EventName(k), EventName(k');
    if n == n' {
      assert n[9] == n'[9];
      if IsNodeKind(k) { assert n[24] == n'[24]; } else { assert n[19] == n'[19]; }
    }
  }

  /** With colon-free execution ids, the idempotency key determines the event, whatever the node id. */
  lemma KeySeparates(e: Event, f: Event)
    requires WellFormed(e) && WellFormed(f) && Key(e) == Key(f)
    ensures e == f
  {
    NamesDiffer(e.kind, f.kind);
    NamesDiffer(f.kind, e.kind);
    FirstColon(EventName(e.kind), Subject(e), EventName(f.kind), Subject(f));
    if IsNodeKind(e.kind) {
      FirstColon(e.executionId, e.nodeId, f.executionId, f.nodeId);
    }
  }

  // ---- State ----

  datatype ExecutionStatus = PENDING | RUNNING | SUCCEEDED | FAILED | CANCELLED

  predicate Terminal(st: ExecutionStatus) { st.SUCCEEDED? || st.FAILED? || st.CANCELLED? }

  /** The nodes of an execution's workflow version in execution order, unless the version does not parse. */
  datatype Plan = Invalid | Nodes(ids: seq<string>)

  datatype RowStatus = RowPending | RowPublished | RowFailed

  /** An outbox row; `eventId` is its unique message id, fixed when the row is created. */
  datatype Row = Row(event: Event, eventId: nat, status: RowStatus, attempts: nat)

  datatype Published = Published(event: Event, eventId: nat)

  /** A dispatch in progress works on the row as it was read, however old that reading is. */
  datatype Dispatch = Dispatch(row: Row, sent: bool)

  /** `Superseded` commands were acknowledged after a copy had gone to a retry queue. */
  datatype Location = Queued | Held(worker: nat) | Processed | DeadLettered | Superseded(copy: nat)

  /** A command message: its attempt header, what republishing has cost its line so far, and where it is. */
  datatype Command = Command(
    executionId: string, firstAttempt: nat, attempt: nat, republished: nat, delayMs: nat, at: Location)

  /** Where a worker stands with the command it holds. `Seen` carries the status that was read, which may
      be out of date; `Executing` counts the nodes done and says whether the next one has begun; `Copied`
      has published the copy of a retry; `Settled` means the failure has been recorded. */
  datatype Phase =
    | Idle
    | Fetched(c: nat)
    | Seen(c: nat, status: ExecutionStatus)
    | Executing(c: nat, done: nat, begun: bool)
    | Erring(c: nat, retryable: bool)
    | Copied(c: nat, copy: nat)
    | Settled(c: nat)

  /** `nextId` and `nextCommand` number events and commands: random ids that never repeat. */
  datatype State = State(
    executions: map<string, ExecutionStatus>,
    plans: map<string, Plan>,
    outbox: map<string, Row>,
    bus: set<Published>,
    timeline: map<nat, Event>,
    dispatches: map<nat, Dispatch>,
    workers: map<nat, Phase>,
    commands: map<nat, Command>,
    nextId: nat,
    nextCommand: nat)

  const INITIAL := State(map[], map[], map[], {}, map[], map[], map[], map[], 0, 0)

  // ---- Retry headers and routing of failures ----

  datatype Header = Missing | Integer(n: int) | OtherNumber | Text(parses: bool, n: int)

  function RetryAttempt(h: Header): nat {
    match h
    case Integer(n) => if n >= 0 then n else 0
    case Text(parses, n) => if parses && n >= 0 then n else 0
    case _ => 0
  }

  predicate Retries(retryable: bool, attempt: nat) { retryable && attempt < MAX_RETRY_ATTEMPTS }

  /** The copy of a command that goes to the retry queue of its next attempt. */
  function NextAttempt(k: Command): Command
    requires k.attempt < MAX_RETRY_ATTEMPTS
  {
    k.(attempt := k.attempt + 1, republished := k.republished + 1,
       delayMs := k.delayMs + RETRY_TTLS_MS[k.attempt], at := Queued)
  }

  // ---- Steps ----

  /** What a worker does next with the command it holds; `ok` says whether the dispatches that the code
      awaits at that point succeed. */
  datatype Action =
    | Deliver(c: nat)
    | Load(ok: bool)
    | Start(ok: bool)
    | Restate(ok: bool)
    | BeginNode
    | EndNode(ok: bool)
    | FailNode
    | Raise(retryable: bool)
    | Complete(ok: bool)
    | Retry
    | AckRetry
    | RecordFailure
    | DeadLetter
    | Nack
    | Crash

  datatype Transfer =
    | BeginDispatch(d: nat, key: string)
    | PutOnBus(d: nat)
    | MarkPublished(d: nat)
    | MarkFailed(d: nat)
    | AbandonDispatch(d: nat)
    | Consume(message: Published)

  datatype Step =
    | CreateExecution(x: string, plan: Plan)
    | SubmitCommand(x: string, header: Header)
    | Worker(w: nat, action: Action)
    | Delivery(transfer: Transfer)

  function PhaseOf(s: State, w: nat): Phase { if w in s.workers then s.workers[w] else Idle }

  predicate Knows(s: State, x: string) { x in s.executions }

  predicate IsTerminal(s: State, x: string) { x in s.executions && Terminal(s.executions[x]) }

  predicate Done(plan: Plan, done: nat) { plan.Nodes? && done == |plan.ids| }

  function PlanOf(s: State, x: string): Plan { if x in s.plans then s.plans[x] else Invalid }

  /** Insert unless the key is taken; a taken row is left as it is. */
  function Upsert(outbox: map<string, Row>, e: Event, eventId: nat): map<string, Row> {
    if Key(e) in outbox then outbox else outbox[Key(e) := Row(e, eventId, RowPending, 0)]
  }

  function Persist(s: State, rows: map<string, Row>): State { s.(outbox := rows, nextId := s.nextId + 1) }

  function Move(s: State, w: nat, p: Phase): State { s.(workers := s.workers[w := p]) }

  function Release(s: State, w: nat, c: nat, at: Location): State
    requires c in s.commands
  {
    s.(workers := s.workers[w := Idle], commands := s.commands[c := s.commands[c].(at := at)])
  }

  /** Leave the processing path normally, or with the retryable error that a failed dispatch raises. */
  function Finish(s: State, w: nat, c: nat, ok: bool): State
    requires c in s.commands
  {
    if ok then Release(s, w, c, Processed) else Move(s, w, Erring(c, true))
  }

  /** Put a new command in the main queue. */
  function Enqueue(s: State, k: Command): State {
    s.(commands := s.commands[s.nextCommand := k], nextCommand := s.nextCommand + 1)
  }

  function Apply(s: State, step: Step): State {
    match step
    case CreateExecution(x, plan) =>
      if x in s.executions || !ColonFree(x) then s
      else
        Enqueue(s.(executions := s.executions[x := PENDING], plans := s.plans[x := plan]),
                Command(x, 0, 0, 0, 0, Queued))
    case SubmitCommand(x, header) => Enqueue(s, Command(x, RetryAttempt(header), RetryAttempt(header), 0, 0, Queued))
    case Worker(w, action) => ApplyWorker(s, w, action)
    case Delivery(transfer) => ApplyTransfer(s, transfer)
  }

  function ApplyWorker(s: State, w: nat, action: Action): State {
    match action
    case Deliver(c) => ApplyDeliver(s, w, c)
    case Load(ok) => ApplyLoad(s, w, ok)
    case Start(ok) => ApplyStart(s, w, ok)
    case Restate(ok) => ApplyRestate(s, w, ok)
    case BeginNode => ApplyNode(s, w, NodeStarted, true)
    case EndNode(ok) => ApplyNode(s, w, NodeCompleted, ok)
    case FailNode => ApplyNode(s, w, NodeFailed, true)
    case Raise(retryable) => ApplyRaise(s, w, retryable)
    case Complete(ok) => ApplyComplete(s, w, ok)
    case Retry => ApplyRetry(s, w)
    case AckRetry => ApplyAckRetry(s, w)
    case RecordFailure => ApplyRecordFailure(s, w)
    case DeadLetter => ApplyDeadLetter(s, w)
    case Nack => ApplyNack(s, w)
    case Crash => ApplyCrash(s, w)
  }

  function ApplyDeliver(s: State, w: nat, c: nat): State {
    if !PhaseOf(s, w).Idle? || c !in s.commands || !s.commands[c].at.Queued? then s
    else s.(workers := s.workers[w := Fetched(c)], commands := s.commands[c := s.commands[c].(at := Held(w))])
  }

  /** The first read: a missing execution is an error, a terminal one is skipped after its pending
      lifecycle rows have been dispatched, any other status is remembered. */
  function ApplyLoad(s: State, w: nat, ok: bool): State {
    match PhaseOf(s, w)
    case Fetched(c) =>
      if c !in s.commands then s
      else
        var x := s.commands[c].executionId;
        if !Knows(s, x) then Move(s, w, Erring(c, false))
        else if IsTerminal(s, x) then Finish(s, w, c, ok)
        else Move(s, w, Seen(c, s.executions[x]))
    case _ => s
  }

  /** The guarded PENDING to RUNNING transaction, with the started row in it; when somebody else has moved
      the execution on, the worker joins in or skips. */
  function ApplyStart(s: State, w: nat, ok: bool): State {
    match PhaseOf(s, w)
    case Seen(c, PENDING) =>
      if c !in s.commands then s
      else StartWith(s, w, c, Upsert(s.outbox, Event(WorkflowStarted, s.commands[c].executionId, ""), s.nextId), ok)
    case _ => s
  }

  function StartWith(s: State, w: nat, c: nat, rows: map<string, Row>, ok: bool): State
    requires c in s.commands
  {
    var x := s.commands[c].executionId;
    if Knows(s, x) && s.executions[x].PENDING? then
      Move(Persist(s.(executions := s.executions[x := RUNNING]), rows), w, Entered(c, ok))
    else if !Knows(s, x) || IsTerminal(s, x) then Finish(s, w, c, ok)
    else Move(s, w, Entered(c, true))
  }

  function Entered(c: nat, ok: bool): Phase { if ok then Executing(c, 0, false) else Erring(c, true) }

  /** A command found RUNNING: the started row is put in again if it is missing, without any guard. */
  function ApplyRestate(s: State, w: nat, ok: bool): State {
    match PhaseOf(s, w)
    case Seen(c, RUNNING) =>
      if c !in s.commands then s
      else
        var rows := Upsert(s.outbox, Event(WorkflowStarted, s.commands[c].executionId, ""), s.nextId);
        Move(Persist(s, rows), w, Entered(c, ok))
    case _ => s
  }

  /** A node event of the node whose turn it is. A node ends after it has begun, and only when its completed
      event is dispatched does the worker go on to the next. */
  function ApplyNode(s: State, w: nat, kind: Kind, ok: bool): State
    requires IsNodeKind(kind)
  {
    match PhaseOf(s, w)
    case Executing(c, done, begun) =>
      if c !in s.commands || begun == kind.NodeStarted? then s
      else
        var x := s.commands[c].executionId;
        var plan := PlanOf(s, x);
        if plan.Invalid? || done >= |plan.ids| then s
        else
          var rows := Upsert(s.outbox, Event(kind, x, plan.ids[done]), s.nextId);
          Move(Persist(s, rows), w, NodePhase(c, done, kind, ok))
    case _ => s
  }

  function NodePhase(c: nat, done: nat, kind: Kind, ok: bool): Phase {
    if kind.NodeCompleted? && ok then Executing(c, done + 1, false) else Executing(c, done, true)
  }

  function ApplyRaise(s: State, w: nat, retryable: bool): State {
    match PhaseOf(s, w)
    case Fetched(c) => Move(s, w, Erring(c, retryable))
    case Seen(c, _) => Move(s, w, Erring(c, retryable))
    case Executing(c, _, _) => Move(s, w, Erring(c, retryable))
    case _ => s
  }

  /** The guarded RUNNING to SUCCEEDED transaction, with the completed row in it, after the last node. */
  function ApplyComplete(s: State, w: nat, ok: bool): State {
    match PhaseOf(s, w)
    case Executing(c, done, false) =>
      if c !in s.commands || !Done(PlanOf(s, s.commands[c].executionId), done) then s
      else
        var rows := Upsert(s.outbox, Event(WorkflowCompleted, s.commands[c].executionId, ""), s.nextId);
        CompleteWith(s, w, c, rows, ok)
    case _ => s
  }

  function CompleteWith(s: State, w: nat, c: nat, rows: map<string, Row>, ok: bool): State
    requires c in s.commands
  {
    var x := s.commands[c].executionId;
    if Knows(s, x) && s.executions[x].RUNNING? then
      Finish(Persist(s.(executions := s.executions[x := SUCCEEDED]), rows), w, c, ok)
    else if IsTerminal(s, x) then Finish(s, w, c, ok)
    else Move(s, w, Erring(c, true))
  }

  /** A retryable failure with attempts left: a copy goes to the retry queue of the next attempt, and comes
      back to the main queue when the time-to-live has passed. */
  function ApplyRetry(s: State, w: nat): State {
    match PhaseOf(s, w)
    case Erring(c, retryable) =>
      if c !in s.commands || !Retries(retryable, s.commands[c].attempt) then s
      else Move(Enqueue(s, NextAttempt(s.commands[c])), w, Copied(c, s.nextCommand))
    case _ => s
  }

  /** Only then is the delivery acknowledged; a crash in between leaves both. */
  function ApplyAckRetry(s: State, w: nat): State {
    match PhaseOf(s, w)
    case Copied(c, copy) => if c in s.commands then Release(s, w, c, Superseded(copy)) else s
    case _ => s
  }

  /** Any other failure: the guarded transaction to FAILED, with the failed row in it. Only an execution
      that is missing puts the delivery back. */
  function ApplyRecordFailure(s: State, w: nat): State {
    match PhaseOf(s, w)
    case Erring(c, retryable) =>
      if c !in s.commands || Retries(retryable, s.commands[c].attempt) then s
      else FailWith(s, w, c, Upsert(s.outbox, Event(WorkflowFailed, s.commands[c].executionId, ""), s.nextId))
    case _ => s
  }

  function FailWith(s: State, w: nat, c: nat, rows: map<string, Row>): State
    requires c in s.commands
  {
    var x := s.commands[c].executionId;
    if Knows(s, x) && (s.executions[x].PENDING? || s.executions[x].RUNNING?) then
      Move(Persist(s.(executions := s.executions[x := FAILED]), rows), w, Settled(c))
    else if IsTerminal(s, x) then Move(s, w, Settled(c))
    else Release(s, w, c, Queued)
  }

  /** After the failure has been recorded: dead-letter and acknowledge. */
  function ApplyDeadLetter(s: State, w: nat): State {
    match PhaseOf(s, w)
    case Settled(c) => if c in s.commands then Release(s, w, c, DeadLettered) else s
    case _ => s
  }

  /** When recording the failure or dead-lettering throws, the delivery is put back. */
  function ApplyNack(s: State, w: nat): State {
    match PhaseOf(s, w)
    case Settled(c) => if c in s.commands then Release(s, w, c, Queued) else s
    case Erring(c, retryable) =>
      if c !in s.commands || Retries(retryable, s.commands[c].attempt) then s else Release(s, w, c, Queued)
    case _ => s
  }

  /** A worker that dies has its delivery put back by the broker. */
  function ApplyCrash(s: State, w: nat): State {
    var p := PhaseOf(s, w);
    if p.Idle? || p.c !in s.commands then s else Release(s, w, p.c, Queued)
  }

  /** Publishing and consuming. A dispatch reads a row, publishes it, and writes back: success increments
      what is stored, failure overwrites it from the reading. Consumers insert by event id. */
  function ApplyTransfer(s: State, transfer: Transfer): State {
    match transfer
    case BeginDispatch(d, key) =>
      if d in s.dispatches || key !in s.outbox || s.outbox[key].status.RowPublished? then s
      else s.(dispatches := s.dispatches[d := Dispatch(s.outbox[key], false)])
    case PutOnBus(d) =>
      if d !in s.dispatches then s
      else
        var row := s.dispatches[d].row;
        s.(bus := s.bus + {Published(row.event, row.eventId)}, dispatches := s.dispatches[d := Dispatch(row, true)])
    case MarkPublished(d) =>
      if d !in s.dispatches || !s.dispatches[d].sent || Key(s.dispatches[d].row.event) !in s.outbox then s
      else
        var k := Key(s.dispatches[d].row.event);
        s.(outbox := s.outbox[k := s.outbox[k].(status := RowPublished, attempts := s.outbox[k].attempts + 1)],
           dispatches := s.dispatches - {d})
    case MarkFailed(d) =>
      if d !in s.dispatches || Key(s.dispatches[d].row.event) !in s.outbox then s
      else
        var row := s.dispatches[d].row;
        var k := Key(row.event);
        s.(outbox := s.outbox[k := AfterFailedPublish(s.outbox[k], row)], dispatches := s.dispatches - {d})
    case AbandonDispatch(d) => s.(dispatches := s.dispatches - {d})
    case Consume(m) =>
      if m !in s.bus || m.event.executionId !in s.executions || m.eventId in s.timeline then s
      else s.(timeline := s.timeline[m.eventId := m.event])
  }

  function AfterFailedPublish(stored: Row, read: Row): Row {
    var attempts := read.attempts + 1;
    stored.(attempts := attempts, status := if attempts >= MAX_PUBLISH_ATTEMPTS then RowFailed else read.status)
  }

  function Run(s: State, steps: seq<Step>): State {
    if steps == [] then s else Apply(Run(s, steps[..|steps| - 1]), steps[|steps| - 1])
  }
}
