/** One filing across all components: the Accountable rows, the provider's cell and its
    goroutine, the workflow record with every earlier backup of it, one live execution,
    and a network that may lose, delay and duplicate requests. */
module Protocol {
  import opened Domain
  import opened CommandStore
  import opened ProviderLedger
  import opened Filing

  datatype RunStatus = Running | Succeeded(result: FilingResult) | Errored | Cancelled

  /** What the workflow database holds about one workflow ID. */
  datatype Workflow = Workflow(scenario: Scenario, polls: nat, status: RunStatus, history: seq<StepResult>)

  /** What one attempt of a step came back with, before it is checkpointed. */
  datatype Attempted = Got(result: StepResult) | Failing(message: string)

  /** The volatile part of an execution: how often the current step was retried, and what
      its latest attempt came back with. */
  datatype Live = Live(tries: nat, reply: Option<Attempted>)

  /** A request that was sent and whose handling is not tied to any answer. */
  datatype CommandMsg = CommandMsg(slot: CommandSlot, commandType: CommandType, detail: string)

  datatype Msg = CommandSent(command: CommandMsg) | PostSent(scenario: Scenario)

  datatype State = State(
    row: Option<FilingRow>,
    commands: map<CommandSlot, CommandRow>,
    cell: Cell,
    worker: Option<Stage>,
    inbox: set<Callback>,
    wf: Option<Workflow>,
    past: set<Workflow>,
    live: Option<Live>,
    commandsOut: multiset<CommandMsg>,
    postsOut: multiset<Scenario>,
    faults: nat)

  const NEW_FILING := State(None, map[], Cell(None, 0, 0, 0), None, {}, None, {}, None, multiset{}, multiset{}, 0)

  const CALLBACK_URL := "/callbacks"
  const STEP_RETRIES: nat := 5

  /** How often a failing step is retried before its error is checkpointed. */
  function Budget(at: Position): nat {
    if at == AtValidate then 0 else STEP_RETRIES
  }

  datatype Received = Message(callback: Callback) | Timeout | Broken

  datatype Action =
    | Seed(scenario: Scenario)
    | Start(scenario: Scenario, polls: nat)
    | Begin
    | Handle(saved: bool)
    | Misread(answer: Attempted)
    | Lose
    | Recv(received: Received)
    | Retry
    | Checkpoint
    | Settle
    | Crash
    | Restore(backup: Workflow)
    | Delete
    | Cancel
    | Resume
    | Deliver(msg: Msg, saved: bool)
    | Duplicate(msg: Msg)
    | Drop(msg: Msg)
    | Fire(saved: bool)
    | CallBack(second: bool)
    | FinishCallback(saved: bool)
    | GiveUp
    | RestartProvider
    | Reconcile(detail: string)
    | Misjudge(outcome: Outcome, detail: string)

  // ---------- Handlers ----------

  function HandleCommand(f: FilingKey, s: State, slot: CommandSlot, commandType: CommandType,
          detail: string): (State, Reply)
  {
    var (slot', reply) := Decide(Slot(s.row, Lookup(s.commands, slot)), CommandFor(f, slot, commandType, detail),
        false);
    (s.(row := slot'.row,
        commands := if slot'.command.Some? then s.commands[slot := slot'.command.value] else s.commands),
     reply)
  }

  function HandlePost(f: FilingKey, s: State, scenario: Scenario, saved: bool): (State, Response) {
    if !saved then (s, LedgerUnavailable)
    else
      var p := Post(s.cell, SubmissionFor(FilingInput(f, scenario), CALLBACK_URL));
      var recorded := s.cell.entry.None? && p.cell.entry.Some? && !p.cell.entry.value.callbackFinished;
      (s.(cell := p.cell, worker := if recorded then Some(Waiting) else s.worker), p.response)
  }

  function AddMsg(s: State, m: Msg): State {
    match m
    case CommandSent(c) => s.(commandsOut := s.commandsOut + multiset{c})
    case PostSent(scenario) => s.(postsOut := s.postsOut + multiset{scenario})
  }

  function RemoveMsg(s: State, m: Msg): State {
    match m
    case CommandSent(c) => s.(commandsOut := s.commandsOut - multiset{c})
    case PostSent(scenario) => s.(postsOut := s.postsOut - multiset{scenario})
  }

  predicate UnderWay(s: State, m: Msg) {
    match m
    case CommandSent(c) => c in s.commandsOut
    case PostSent(scenario) => scenario in s.postsOut
  }

  function HandleMsg(f: FilingKey, s: State, m: Msg, saved: bool): State {
    match m
    case CommandSent(c) => HandleCommand(f, s, c.slot, c.commandType, c.detail).0
    case PostSent(scenario) => HandlePost(f, s, scenario, saved).0
  }

  // ---------- The live execution ----------

  function PositionOf(f: FilingKey, w: Workflow): Position {
    Replay(f, w.polls, w.history)
  }

  predicate Asking(s: State) {
    s.wf.Some? && s.wf.value.status == Running && s.live.Some? && s.live.value.reply.None?
  }

  function WithReply(s: State, reply: Attempted): State {
    if s.live.Some? then s.(live := Some(s.live.value.(reply := Some(reply)))) else s
  }

  function ReplyToCommand(reply: Reply): Attempted {
    if reply.Done? then Got(CommandDone(reply.result)) else Failing("command failed")
  }

  function ReplyToPost(response: Option<Response>): Attempted {
    match Classify(response)
    case Retryable(message) => Failing(message)
    case Answered(outcome) => Got(SubmitDone(outcome))
  }

  /** What an exact lookup answers. */
  function LookUp(f: FilingKey, s: State, request: Request): Attempted
    requires request.ReadFiling? || request.ReadStatus?
  {
    match request
    case ReadFiling => if s.row.Some? then Got(FilingRead(s.row.value)) else Failing("filing not found")
    case ReadStatus(id) => Got(StatusRead(StatusOf(if id == ProviderOperationID(f) then s.cell.entry else None, id)))
  }

  /** Rows of other filings: past ready they store an operation, and never this one's. */
  predicate Foreign(f: FilingKey, row: FilingRow) {
    row.state == Ready || (OperationText(row) != "" && OperationText(row) != ProviderOperationID(f))
  }

  /** Whatever a lookup may answer whose URL stands for another ID, or for none. */
  predicate Misleading(f: FilingKey, request: Request, answer: Attempted) {
    match request
    case ReadFiling => answer.Failing? || (answer.result.FilingRead? && Foreign(f, answer.result.row))
    case ReadStatus(_) => answer.Failing? || answer.result.StatusRead?
    case _ => false
  }

  function MisreadCurrent(f: FilingKey, s: State, answer: Attempted): State
    requires Asking(s)
  {
    if !Addressable(f) && Misleading(f, RequestOf(f, PositionOf(f, s.wf.value)), answer)
        then WithReply(s, answer) else s
  }

  /** The current request is handled and its answer reaches the workflow. */
  function HandleCurrent(f: FilingKey, s: State, saved: bool): State
    requires Asking(s)
  {
    match RequestOf(f, PositionOf(f, s.wf.value))
    case ReadFiling => if Addressable(f) then WithReply(s, LookUp(f, s, ReadFiling)) else s
    case Send(slot, commandType, detail) =>
      var (s', reply) := HandleCommand(f, s, slot, commandType, detail);
      WithReply(s', ReplyToCommand(reply))
    case ReadStatus(id) => if Addressable(f) then WithReply(s, LookUp(f, s, ReadStatus(id))) else s
    case PostSubmission =>
      var (s', response) := HandlePost(f, s, s.wf.value.scenario, saved);
      WithReply(s', ReplyToPost(Some(response)))
    case Receive => s
    case Nothing => s
  }

  /** The current request goes out and no answer comes back; it may be handled later. */
  function LoseCurrent(f: FilingKey, s: State): State
    requires Asking(s)
  {
    match RequestOf(f, PositionOf(f, s.wf.value))
    case ReadFiling => WithReply(s, Failing("transport failure"))
    case ReadStatus(_) => WithReply(s, Failing("transport failure"))
    case Send(slot, commandType, detail) =>
      WithReply(AddMsg(s, CommandSent(CommandMsg(slot, commandType, detail))), Failing("transport failure"))
    case PostSubmission =>
      WithReply(AddMsg(s, PostSent(s.wf.value.scenario)), ReplyToPost(None))
    case Receive => s
    case Nothing => s
  }

  function ReceiveCurrent(f: FilingKey, s: State, received: Received): State
    requires Asking(s)
  {
    if RequestOf(f, PositionOf(f, s.wf.value)) != Receive then s
    else match received
      case Message(cb) => if cb in s.inbox then WithReply(s, Got(CallbackReceived(cb))) else s
      case Timeout => WithReply(s, Got(RecvTimedOut))
      case Broken => WithReply(s, Got(StepFailed("recv failed")))
  }

  /** Every change of the workflow record also enters the set of possible backups. */
  function Write(s: State, w: Workflow): State {
    s.(wf := Some(w), past := s.past + {w})
  }

  function Append(s: State, r: StepResult): State
    requires s.wf.Some?
  {
    Write(s, s.wf.value.(history := s.wf.value.history + [r])).(live := Some(Live(0, None)))
  }

  /** The latest attempt failed and the step has retries left. */
  predicate CanRetry(f: FilingKey, s: State) {
    && s.wf.Some? && s.live.Some? && s.live.value.reply.Some? && s.live.value.reply.value.Failing?
    && s.live.value.tries < Budget(PositionOf(f, s.wf.value))
  }

  function ResultOf(reply: Attempted): StepResult {
    if reply.Got? then reply.result else StepFailed(reply.message)
  }

  function CheckpointCurrent(f: FilingKey, s: State): State {
    if s.wf.None? || s.live.None? || s.live.value.reply.None? || CanRetry(f, s) then s
    else Append(s, ResultOf(s.live.value.reply.value))
  }

  function RetryCurrent(f: FilingKey, s: State): State {
    if CanRetry(f, s) then s.(live := Some(Live(s.live.value.tries + 1, None))) else s
  }

  function SettleCurrent(f: FilingKey, s: State): State
    requires Asking(s)
  {
    match PositionOf(f, s.wf.value)
    case Returned(result) => Write(s, s.wf.value.(status := Succeeded(result))).(live := None)
    case Failed(_) => Write(s, s.wf.value.(status := Errored)).(live := None)
    case _ => s
  }

  // ---------- The provider's goroutine ----------

  function FireWorker(s: State, saved: bool): State {
    if s.worker != Some(Waiting) then s
    else if s.cell.entry.None? then s.(worker := None)
    else
      var e := s.cell.entry.value;
      if e.status == Processing && !saved then s.(worker := None)
      else s.(cell := s.cell.(entry := Some(Complete(e))),
              worker := if e.callbackFinished then None else Some(Calling))
  }

  /** The provider has something to call back about: an accepted operation, completed and saved. */
  predicate Callable(e: Entry) {
    e.status == Completed && e.outcome == OutcomeAccepted && e.scenario != ScenarioNoCallbackDone
  }

  /** A callback arrives, perhaps long after the goroutine that sent it has stopped. One for a
      workflow that does not exist is refused. */
  function CallBackOnce(f: FilingKey, s: State, second: bool): State {
    if s.wf.None? || s.cell.entry.None? || !Callable(s.cell.entry.value) then s
    else
      var id := ProviderOperationID(f);
      s.(inbox := s.inbox + {Callback(id + (if second then "-cb2" else "-cb1"), id, OutcomeAccepted)})
  }

  function FinishWorker(s: State, saved: bool): State {
    if s.worker != Some(Calling) then s
    else if s.cell.entry.None? then s.(worker := None)
    else s.(cell := s.cell.(entry := Some(s.cell.entry.value.(callbackFinished := saved))), worker := None)
  }

  function ResumeWorker(s: State): State {
    s.(worker := if s.cell.entry.Some? && (s.cell.entry.value.status == Processing
        || !s.cell.entry.value.callbackFinished)
                 then Some(Waiting) else None)
  }

  /** What a reconciler sends once its lookup has found a completed operation. */
  function OutcomeMsg(o: Outcome, detail: string): Msg {
    CommandSent(CommandMsg(OutcomeSlot, OutcomeCommand(MapOutcome(o)), detail))
  }

  function ReconcileOutcome(f: FilingKey, s: State, detail: string): State {
    if Addressable(f) && s.cell.entry.Some? && s.cell.entry.value.status == Completed
        && s.cell.entry.value.outcome != NoOutcome
    then AddMsg(s, OutcomeMsg(s.cell.entry.value.outcome, detail))
    else s
  }

  /** A reconciler whose lookup stood for another ID. */
  function MisjudgeOutcome(f: FilingKey, s: State, o: Outcome, detail: string): State {
    if Addressable(f) || o == NoOutcome then s else AddMsg(s, OutcomeMsg(o, detail))
  }

  // ---------- One step ----------

  /** What the live execution of the workflow does. */
  predicate IsExecution(a: Action) {
    a.Handle? || a.Misread? || a.Lose? || a.Recv? || a.Retry? || a.Checkpoint? || a.Settle?
  }

  /** What happens to the workflow record, and to the execution as a whole. */
  predicate IsLifecycle(a: Action) {
    a.Start? || a.Begin? || a.Crash? || a.Restore? || a.Delete? || a.Cancel? || a.Resume?
  }

  /** What happens to requests under way. */
  predicate IsNetwork(a: Action) {
    a.Deliver? || a.Duplicate? || a.Drop? || a.Reconcile? || a.Misjudge?
  }

  function Execute(f: FilingKey, s: State, a: Action): State
    requires IsExecution(a)
  {
    if a.Retry? then RetryCurrent(f, s)
    else if a.Checkpoint? then CheckpointCurrent(f, s)
    else if !Asking(s) then s
    else if a.Handle? then HandleCurrent(f, s, a.saved)
    else if a.Misread? then MisreadCurrent(f, s, a.answer)
    else if a.Lose? then LoseCurrent(f, s)
    else if a.Recv? then ReceiveCurrent(f, s, a.received)
    else SettleCurrent(f, s)
  }

  function Lifecycle(s: State, a: Action): State
    requires IsLifecycle(a)
  {
    match a
    case Start(scenario, polls) => if s.wf.None? then Write(s, Workflow(scenario, polls, Running, [])) else s
    case Begin =>
      if s.wf.Some? && s.wf.value.status == Running && s.live.None? then s.(live := Some(Live(0, None))) else s
    case Crash => if s.live.Some? then s.(live := None, faults := s.faults + 1) else s
    case Restore(w) => if w in s.past then s.(wf := Some(w), live := None, faults := s.faults + 1) else s
    case Delete => s.(wf := None, live := None)
    case Cancel =>
      if s.wf.Some? && s.wf.value.status == Running then Write(s, s.wf.value.(status := Cancelled)) else s
    case Resume =>
      if s.wf.Some? && (s.wf.value.status == Cancelled || s.wf.value.status == Errored)
      then Write(s, s.wf.value.(status := Running)) else s
  }

  function Network(f: FilingKey, s: State, a: Action): State
    requires IsNetwork(a)
  {
    match a
    case Deliver(m, saved) => if UnderWay(s, m) then HandleMsg(f, RemoveMsg(s, m), m, saved) else s
    case Duplicate(m) => if UnderWay(s, m) then AddMsg(s, m) else s
    case Drop(m) => RemoveMsg(s, m)
    case Reconcile(detail) => ReconcileOutcome(f, s, detail)
    case Misjudge(o, detail) => MisjudgeOutcome(f, s, o, detail)
  }

  /** Seeding, and what the provider does on its own. */
  function AtServices(f: FilingKey, s: State, a: Action): State
    requires !IsExecution(a) && !IsLifecycle(a) && !IsNetwork(a)
  {
    match a
    case Seed(scenario) => if s.commands == map[] then s.(row := Some(FilingRow(scenario, Ready, None))) else s
    case Fire(saved) => FireWorker(s, saved)
    case CallBack(second) => CallBackOnce(f, s, second)
    case FinishCallback(saved) => FinishWorker(s, saved)
    case GiveUp => s.(worker := None)
    case RestartProvider => ResumeWorker(s)
  }

  /** One step of the composed system. An action that is not enabled changes nothing. */
  function Step(f: FilingKey, s: State, a: Action): State {
    if IsExecution(a) then Execute(f, s, a)
    else if IsLifecycle(a) then Lifecycle(s, a)
    else if IsNetwork(a) then Network(f, s, a)
    else AtServices(f, s, a)
  }

  function RunAll(f: FilingKey, s: State, actions: seq<Action>): State
    decreases |actions|
  {
    if actions == [] then s else RunAll(f, Step(f, s, actions[0]), actions[1..])
  }
}
