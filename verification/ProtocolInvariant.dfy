/** The invariant of the composed system: what every position of the workflow proves about
    the other components, in every backup, reply and request at once. */
module ProtocolInvariant {
  import opened Domain
  import opened CommandStore
  import opened ProviderLedger
  import opened Filing
  import opened Protocol

  // ---------- Facts that never become false ----------

  predicate Intended(s: State) {
    IntentSlot in s.commands
  }

  predicate Settled(s: State, o: Outcome) {
    s.cell.entry.Some? && s.cell.entry.value.status == Completed && s.cell.entry.value.outcome == o
  }

  /** What a lookup of this filing's operation has shown, as far as its lookups can be trusted. */
  predicate Vouched(f: FilingKey, s: State, o: Outcome) {
    Addressable(f) ==> Settled(s, o)
  }

  predicate Recorded(s: State, state: FilingState) {
    if state == NeedsReview then ReviewSlot in s.commands
    else OutcomeSlot in s.commands && s.commands[OutcomeSlot].request.commandType == OutcomeCommand(state)
  }

  /** The outcome a recording command claims is the provider's. */
  predicate Justified(f: FilingKey, s: State, state: FilingState) {
    && (state == Accepted || state == Rejected || state == NeedsReview)
    && (state == Accepted ==> Vouched(f, s, OutcomeAccepted))
    && (state == Rejected ==> Vouched(f, s, OutcomeRejected))
  }

  /** The submission the workflow waits for is its own. */
  predicate OwnID(f: FilingKey, id: string) {
    Addressable(f) ==> id == ProviderOperationID(f)
  }

  /** What having reached a position proves about the other components. */
  predicate PositionOk(f: FilingKey, s: State, at: Position) {
    match at
    case AtValidate => true
    case AtPrepare => true
    case AtFindExisting(_) => Intended(s)
    case AtSubmit(_) => Intended(s)
    case AtResolve(_) => Intended(s)
    case AtResubmit(_) => Intended(s)
    case AtMarkSubmitted(id) => Intended(s) && OwnID(f, id)
    case AtRecv(_, id) => Intended(s) && OwnID(f, id)
    case AtPollStatus(_, id) => Intended(s) && OwnID(f, id)
    case AtRecord(state, _, next) =>
      && Justified(f, s, state)
      && next.result.outcome != AlreadyFinal
      && MapResult(next.result.outcome) == state
    case AtFinalRead(result) => result.outcome != AlreadyFinal && Recorded(s, MapResult(result.outcome))
    case Returned(result) =>
      if result.outcome == AlreadyFinal then Addressable(f) ==> OutcomeSlot in s.commands
      else Recorded(s, MapResult(result.outcome))
    case Failed(_) => true
  }

  /** What a step result proves, given where it was obtained. */
  predicate ResultOk(f: FilingKey, s: State, at: Position, r: StepResult) {
    match r
    case FilingRead(row) =>
      if Addressable(f) then (row.state != Ready ==> Intended(s)) && (Terminal(row.state) ==> OutcomeSlot in s.commands)
      else Foreign(f, row)
    case CommandDone(_) =>
      && (at == AtPrepare ==> Intended(s))
      && (at.AtRecord? ==> Recorded(s, at.state))
    case StatusRead(Found(id, status, o)) => OwnID(f, id) && (status == Completed ==> Vouched(f, s, o))
    case SubmitDone(sub) => sub.verdict == VerdictRejected ==> Settled(s, OutcomeRejected)
    case CallbackReceived(cb) => cb.outcome != NoOutcome ==> Settled(s, cb.outcome)
    case _ => true
  }

  /** The positions up to the submission. */
  predicate Early(at: Position) {
    at.AtValidate? || at.AtPrepare? || at.AtFindExisting? || at.AtResolve? || at.AtResubmit?
  }

  lemma EarlyStepKeepsOk(f: FilingKey, s: State, polls: nat, at: Position, r: StepResult)
    requires PositionOk(f, s, at) && ResultOk(f, s, at, r) && Early(at)
    ensures PositionOk(f, s, Succeed(f, polls, at, r))
  {
  }

  lemma LateStepKeepsOk(f: FilingKey, s: State, polls: nat, at: Position, r: StepResult)
    requires PositionOk(f, s, at) && ResultOk(f, s, at, r) && !Early(at)
    ensures PositionOk(f, s, Succeed(f, polls, at, r))
  {
  }

  lemma AdvanceKeepsOk(f: FilingKey, s: State, polls: nat, at: Position, r: StepResult)
    requires PositionOk(f, s, at) && ResultOk(f, s, at, r)
    ensures PositionOk(f, s, Advance(f, polls, at, r))
  {
    if Early(at) {
      EarlyStepKeepsOk(f, s, polls, at, r);
    } else {
      LateStepKeepsOk(f, s, polls, at, r);
    }
  }

  predicate Keeps(s: State, s': State) {
    && (forall k :: k in s.commands ==> k in s'.commands && s'.commands[k].request == s.commands[k].request)
    && (s.cell.entry.Some? ==> s'.cell.entry.Some? && EntryGrows(s.cell.entry.value, s'.cell.entry.value))
  }

  lemma PositionStaysOk(f: FilingKey, s: State, s': State, at: Position)
    requires Keeps(s, s') && PositionOk(f, s, at)
    ensures PositionOk(f, s', at)
  {
  }

  // ---------- The invariant ----------

  predicate Fits(slot: CommandSlot, t: CommandType) {
    match slot
    case IntentSlot => t == PrepareFilingSubmission
    case SubmittedSlot => t == MarkFilingSubmitted
    case OutcomeSlot => t == MarkFilingAccepted || t == MarkFilingRejected
    case ReviewSlot => t == MarkFilingNeedsReview
  }

  predicate CommandOk(f: FilingKey, slot: CommandSlot, c: CommandRow) {
    && Fits(slot, c.request.commandType)
    && c.request == CommandFor(f, slot, c.request.commandType, c.request.detail)
    && c.result.applied
    && Transition(c.request.commandType) == Some(c.result.newState)
  }

  predicate RowOk(f: FilingKey, row: FilingRow, commands: map<CommandSlot, CommandRow>) {
    && (row.state == Ready <==> IntentSlot !in commands)
    && (row.state == Ready ==> commands == map[] && row.providerOperation == None)
    && (row.state != Ready ==> row.providerOperation == Some(ProviderOperationID(f)))
    && (OutcomeSlot in commands <==> Terminal(row.state))
    && (OutcomeSlot in commands ==> commands[OutcomeSlot].request.commandType == OutcomeCommand(row.state))
    && (SubmittedSlot in commands ==> Rank(row.state) >= 2)
    && (row.state == Submitted ==> SubmittedSlot in commands)
    && (ReviewSlot in commands ==> Rank(row.state) >= 3)
    && (row.state == NeedsReview ==> ReviewSlot in commands)
  }

  predicate StoreOk(f: FilingKey, s: State) {
    && (s.row.None? ==> s.commands == map[])
    && (s.row.Some? ==> RowOk(f, s.row.value, s.commands))
    && (forall k :: k in s.commands ==> CommandOk(f, k, s.commands[k]))
  }

  predicate LedgerOk(f: FilingKey, s: State) {
    && (s.cell.entry.Some? ==>
          && EntryOk(ProviderOperationID(f), s.cell.entry.value)
          && s.cell.entry.value.filingId == f.filingId
          && Intended(s))
    && (s.worker.Some? ==> s.cell.entry.Some? && !s.cell.entry.value.callbackFinished)
    && (s.worker == Some(Calling) ==> Settled(s, OutcomeAccepted))
    && (forall cb :: cb in s.inbox ==> cb.outcome == OutcomeAccepted && Settled(s, OutcomeAccepted))
  }

  /** An outcome in Accountable is the provider's. */
  predicate Agreed(f: FilingKey, s: State) {
    OutcomeSlot in s.commands ==>
      && (s.commands[OutcomeSlot].request.commandType == MarkFilingAccepted ==> Vouched(f, s, OutcomeAccepted))
      && (s.commands[OutcomeSlot].request.commandType == MarkFilingRejected ==> Vouched(f, s, OutcomeRejected))
  }

  predicate CommandMsgOk(f: FilingKey, s: State, slot: CommandSlot, t: CommandType) {
    && Fits(slot, t)
    && (t == MarkFilingAccepted ==> Vouched(f, s, OutcomeAccepted))
    && (t == MarkFilingRejected ==> Vouched(f, s, OutcomeRejected))
  }

  predicate MsgOk(f: FilingKey, s: State, m: Msg) {
    match m
    case CommandSent(c) => CommandMsgOk(f, s, c.slot, c.commandType)
    case PostSent(_) => Intended(s)
  }

  /** Every request under way is justified. */
  predicate NetOk(f: FilingKey, s: State) {
    && (forall c :: c in s.commandsOut ==> CommandMsgOk(f, s, c.slot, c.commandType))
    && (s.postsOut != multiset{} ==> Intended(s))
  }

  predicate WorkflowOk(f: FilingKey, s: State, w: Workflow) {
    && PositionOk(f, s, PositionOf(f, w))
    && (w.status.Succeeded? ==> PositionOf(f, w) == Returned(w.status.result))
  }

  predicate LiveOk(f: FilingKey, s: State) {
    s.live.Some? ==>
      && s.wf.Some?
      && (s.live.value.reply.Some? && s.live.value.reply.value.Got? ==>
            PositionOk(f, s, Advance(f, s.wf.value.polls, PositionOf(f, s.wf.value), s.live.value.reply.value.result)))
  }

  /** The services: Accountable and the provider. */
  predicate ServicesOk(f: FilingKey, s: State) {
    StoreOk(f, s) && LedgerOk(f, s) && Agreed(f, s)
  }

  /** The clients: every backup, the live execution, every request under way. */
  predicate ClientsOk(f: FilingKey, s: State) {
    && (s.wf.Some? ==> s.wf.value in s.past)
    && (forall w :: w in s.past ==> WorkflowOk(f, s, w))
    && LiveOk(f, s)
    && NetOk(f, s)
  }

  predicate Inv(f: FilingKey, s: State) {
    ServicesOk(f, s) && ClientsOk(f, s)
  }

  // ---------- Preservation ----------

  /** Growth of the services leaves every client's knowledge true. */
  lemma ClientsKeepKnowing(f: FilingKey, s: State, s': State)
    requires ClientsOk(f, s) && Keeps(s, s') && NetOk(f, s')
    requires s'.wf == s.wf && s'.past == s.past && s'.live == s.live
    ensures ClientsOk(f, s')
  {
    forall w | w in s'.past
      ensures WorkflowOk(f, s', w)
    {
      assert WorkflowOk(f, s, w);
      PositionStaysOk(f, s, s', PositionOf(f, w));
    }
    if s.live.Some? && s.live.value.reply.Some? && s.live.value.reply.value.Got? {
      var at := Advance(f, s.wf.value.polls, PositionOf(f, s.wf.value), s.live.value.reply.value.result);
      PositionStaysOk(f, s, s', at);
    }
  }

  lemma NetShrinks(f: FilingKey, s: State, s': State)
    requires NetOk(f, s) && Keeps(s, s')
    requires s'.commandsOut <= s.commandsOut && s'.postsOut <= s.postsOut
    ensures NetOk(f, s')
  {
  }

  lemma ClientsStayOk(f: FilingKey, s: State, s': State)
    requires ClientsOk(f, s) && Keeps(s, s')
    requires s'.wf == s.wf && s'.past == s.past && s'.live == s.live
    requires s'.commandsOut <= s.commandsOut && s'.postsOut <= s.postsOut
    ensures ClientsOk(f, s')
  {
    NetShrinks(f, s, s');
    ClientsKeepKnowing(f, s, s');
  }

  /** Moving requests about leaves everything else that is known alone. */
  lemma RequestsMove(f: FilingKey, s: State, commandsOut: multiset<CommandMsg>, postsOut: multiset<Scenario>)
    requires Inv(f, s) && NetOk(f, s.(commandsOut := commandsOut, postsOut := postsOut))
    ensures Inv(f, s.(commandsOut := commandsOut, postsOut := postsOut))
  {
    ClientsKeepKnowing(f, s, s.(commandsOut := commandsOut, postsOut := postsOut));
  }

  /** What a transaction stores under its key is its own request and result. */
  lemma CommandIsStored(f: FilingKey, s: State, slot: CommandSlot, t: CommandType, detail: string)
    requires Fits(slot, t) && (slot in s.commands ==> CommandOk(f, slot, s.commands[slot]))
    ensures var (s', reply) := HandleCommand(f, s, slot, t, detail);
      && (slot in s'.commands ==> CommandOk(f, slot, s'.commands[slot]))
      && (slot in s.commands ==> slot in s'.commands && s'.commands[slot].request == s.commands[slot].request)
      && (slot !in s.commands && slot in s'.commands ==> s'.commands[slot].request == CommandFor(f, slot, t, detail))
      && (s'.commands == s.commands || (slot in s'.commands && s'.commands == s.commands[slot := s'.commands[slot]]))
      && (reply.Done? ==>
            && slot in s'.commands && s'.commands[slot].request == CommandFor(f, slot, t, detail)
            && Transition(t) == Some(reply.result.newState))
  {
  }

  predicate RowsGrow(f: FilingKey, before: map<CommandSlot, CommandRow>, after: map<CommandSlot, CommandRow>,
          slot: CommandSlot, req: CommandRequest)
  {
    && (forall k :: k in after ==> CommandOk(f, k, after[k]))
    && (forall k :: k in before ==> k in after && after[k].request == before[k].request)
    && (forall k :: k in after ==> k in before || (k == slot && after[k].request == req))
  }

  lemma RowsGrowByOne(f: FilingKey, before: map<CommandSlot, CommandRow>, slot: CommandSlot, c: CommandRow,
          req: CommandRequest)
    requires forall k :: k in before ==> CommandOk(f, k, before[k])
    requires CommandOk(f, slot, c)
    requires if slot in before then c.request == before[slot].request else c.request == req
    ensures RowsGrow(f, before, before[slot := c], slot, req)
  {
  }

  /** A transaction only ever adds its own command, with its own request. */
  lemma CommandKeepsRows(f: FilingKey, s: State, slot: CommandSlot, t: CommandType, detail: string)
    requires StoreOk(f, s) && Fits(slot, t)
    ensures RowsGrow(f, s.commands, HandleCommand(f, s, slot, t, detail).0.commands, slot,
        CommandFor(f, slot, t, detail))
  {
    CommandIsStored(f, s, slot, t, detail);
    var commands := HandleCommand(f, s, slot, t, detail).0.commands;
    if slot in commands {
      RowsGrowByOne(f, s.commands, slot, commands[slot], CommandFor(f, slot, t, detail));
    }
  }

  /** A new command moves the row along its permitted transition; nothing else does. */
  lemma CommandMovesRow(f: FilingKey, s: State, slot: CommandSlot, t: CommandType, detail: string)
    requires Fits(slot, t) && (slot in s.commands ==> CommandOk(f, slot, s.commands[slot]))
    ensures var s' := HandleCommand(f, s, slot, t, detail).0;
      if slot !in s.commands && slot in s'.commands then
        && s.row.Some? && s'.row.Some?
        && AllowsState(t, s.row.value.state) && Transition(t) == Some(s'.row.value.state)
        && s'.row.value.providerOperation ==
             (if slot == IntentSlot then Some(ProviderOperationID(f)) else s.row.value.providerOperation)
        && s'.commands.Keys == s.commands.Keys + {slot}
        && (slot == OutcomeSlot ==> s'.commands[OutcomeSlot].request.commandType == t)
        && (OutcomeSlot in s.commands ==> s'.commands[OutcomeSlot] == s.commands[OutcomeSlot])
      else
        && s'.row == s.row && s'.commands.Keys == s.commands.Keys
        && (OutcomeSlot in s.commands ==> s'.commands[OutcomeSlot].request == s.commands[OutcomeSlot].request)
  {
  }

  /** A permitted transition leaves a row that the stored commands explain. */
  lemma MovedRowIsOk(f: FilingKey, row: FilingRow, commands: map<CommandSlot, CommandRow>,
                     row': FilingRow, commands': map<CommandSlot, CommandRow>, slot: CommandSlot, t: CommandType)
    requires RowOk(f, row, commands) && Fits(slot, t) && slot !in commands
    requires AllowsState(t, row.state) && Transition(t) == Some(row'.state)
    requires row'.providerOperation == (if slot == IntentSlot then Some(ProviderOperationID(f))
        else row.providerOperation)
    requires commands'.Keys == commands.Keys + {slot}
    requires slot == OutcomeSlot ==> commands'[OutcomeSlot].request.commandType == t
    requires OutcomeSlot in commands ==> commands'[OutcomeSlot] == commands[OutcomeSlot]
    ensures RowOk(f, row', commands')
  {
    assert commands' != map[] by { assert slot in commands'; }
  }

  /** A transaction that applies moves the row exactly as the stored commands say. */
  lemma CommandKeepsRow(f: FilingKey, s: State, slot: CommandSlot, t: CommandType, detail: string)
    requires StoreOk(f, s) && Fits(slot, t)
    ensures var s' := HandleCommand(f, s, slot, t, detail).0;
      && (s'.row.None? ==> s'.commands == map[])
      && (s'.row.Some? ==> RowOk(f, s'.row.value, s'.commands))
  {
    CommandMovesRow(f, s, slot, t, detail);
    var s' := HandleCommand(f, s, slot, t, detail).0;
    if slot !in s.commands && slot in s'.commands {
      MovedRowIsOk(f, s.row.value, s.commands, s'.row.value, s'.commands, slot, t);
    } else {
      assert s'.commands == map[] <==> s'.commands.Keys == {};
    }
  }

  /** What Accountable stores leaves the ledger as it is, and a new outcome is the ledger's. */
  lemma LedgerStaysAgreed(f: FilingKey, s: State, s': State, slot: CommandSlot, t: CommandType)
    requires LedgerOk(f, s) && Agreed(f, s) && CommandMsgOk(f, s, slot, t)
    requires s'.cell == s.cell && s'.worker == s.worker && s'.inbox == s.inbox
    requires forall k :: k in s.commands ==> k in s'.commands && s'.commands[k].request == s.commands[k].request
    requires OutcomeSlot in s'.commands ==>
               OutcomeSlot in s.commands || (slot == OutcomeSlot && s'.commands[OutcomeSlot].request.commandType == t)
    ensures LedgerOk(f, s') && Agreed(f, s')
  {
  }

  lemma CommandKeepsStore(f: FilingKey, s: State, slot: CommandSlot, t: CommandType, detail: string)
    requires StoreOk(f, s) && Fits(slot, t)
    ensures var s' := HandleCommand(f, s, slot, t, detail).0;
      && StoreOk(f, s') && Keeps(s, s')
      && s'.cell == s.cell && s'.worker == s.worker && s'.inbox == s.inbox
      && RowsGrow(f, s.commands, s'.commands, slot, CommandFor(f, slot, t, detail))
  {
    CommandKeepsRows(f, s, slot, t, detail);
    CommandKeepsRow(f, s, slot, t, detail);
  }

  lemma CommandKeepsServices(f: FilingKey, s: State, slot: CommandSlot, t: CommandType, detail: string)
    requires ServicesOk(f, s) && CommandMsgOk(f, s, slot, t)
    ensures var (s', reply) := HandleCommand(f, s, slot, t, detail);
      && ServicesOk(f, s') && Keeps(s, s')
      && (reply.Done? ==>
            && slot in s'.commands && s'.commands[slot].request == CommandFor(f, slot, t, detail)
            && Transition(t) == Some(reply.result.newState))
  {
    CommandIsStored(f, s, slot, t, detail);
    CommandKeepsStore(f, s, slot, t, detail);
    LedgerStaysAgreed(f, s, HandleCommand(f, s, slot, t, detail).0, slot, t);
  }

  lemma PostKeepsServices(f: FilingKey, s: State, scenario: Scenario, saved: bool)
    requires ServicesOk(f, s) && Intended(s)
    ensures var (s', response) := HandlePost(f, s, scenario, saved);
      && ServicesOk(f, s') && Keeps(s, s')
      && (response.RejectedAnswer? ==> Settled(s', OutcomeRejected))
  {
    if saved {
      var req := SubmissionFor(FilingInput(f, scenario), CALLBACK_URL);
      PostIsFair(s.cell, req);
      PostIsTruthful(s.cell, req);
    }
  }

  lemma CommandKeepsInv(f: FilingKey, s: State, slot: CommandSlot, t: CommandType, detail: string)
    requires Inv(f, s) && CommandMsgOk(f, s, slot, t)
    ensures var (s', reply) := HandleCommand(f, s, slot, t, detail);
      && Inv(f, s') && s'.wf == s.wf && s'.live == s.live
      && (reply.Done? ==>
            && slot in s'.commands && s'.commands[slot].request == CommandFor(f, slot, t, detail)
            && Transition(t) == Some(reply.result.newState))
  {
    CommandKeepsServices(f, s, slot, t, detail);
    ClientsStayOk(f, s, HandleCommand(f, s, slot, t, detail).0);
  }

  lemma PostKeepsInv(f: FilingKey, s: State, scenario: Scenario, saved: bool)
    requires Inv(f, s) && Intended(s)
    ensures var (s', response) := HandlePost(f, s, scenario, saved);
      && Inv(f, s') && s'.wf == s.wf && s'.live == s.live
      && (response.RejectedAnswer? ==> Settled(s', OutcomeRejected))
  {
    PostKeepsServices(f, s, scenario, saved);
    ClientsStayOk(f, s, HandlePost(f, s, scenario, saved).0);
  }

  lemma ClientsStayOkWithReply(f: FilingKey, s: State, reply: Attempted)
    requires ClientsOk(f, s) && s.live.Some?
    requires reply.Got? ==> PositionOk(f, s, Advance(f, s.wf.value.polls, PositionOf(f, s.wf.value), reply.result))
    ensures ClientsOk(f, WithReply(s, reply))
  {
    var s' := WithReply(s, reply);
    assert Keeps(s, s');
    forall w | w in s'.past
      ensures WorkflowOk(f, s', w)
    {
      assert WorkflowOk(f, s, w);
      PositionStaysOk(f, s, s', PositionOf(f, w));
    }
    if reply.Got? {
      PositionStaysOk(f, s, s', Advance(f, s.wf.value.polls, PositionOf(f, s.wf.value), reply.result));
    }
  }

  /** A step result that proves what its position needs may be put into the reply. */
  lemma GotIsOk(f: FilingKey, s: State, r: StepResult)
    requires ClientsOk(f, s) && s.live.Some?
    requires ResultOk(f, s, PositionOf(f, s.wf.value), r)
    ensures ClientsOk(f, WithReply(s, Got(r)))
  {
    assert WorkflowOk(f, s, s.wf.value);
    AdvanceKeepsOk(f, s, s.wf.value.polls, PositionOf(f, s.wf.value), r);
    ClientsStayOkWithReply(f, s, Got(r));
  }

  /** The requests that a position sends are justified by what the position proves. */
  lemma RequestsAreJustified(f: FilingKey, s: State, at: Position)
    requires PositionOk(f, s, at)
    ensures match RequestOf(f, at)
      case Send(slot, t, _) => CommandMsgOk(f, s, slot, t)
      case PostSubmission => Intended(s)
      case ReadStatus(id) => OwnID(f, id)
      case _ => true
  {
  }

  lemma CommandReplyIsOk(f: FilingKey, s: State, slot: CommandSlot, t: CommandType, detail: string, reply: Reply)
    requires Inv(f, s) && s.live.Some?
    requires RequestOf(f, PositionOf(f, s.wf.value)) == Send(slot, t, detail)
    requires reply.Done? ==> slot in s.commands && s.commands[slot].request == CommandFor(f, slot, t, detail)
    ensures Inv(f, WithReply(s, ReplyToCommand(reply)))
  {
    if reply.Done? {
      assert WorkflowOk(f, s, s.wf.value);
      GotIsOk(f, s, CommandDone(reply.result));
    } else {
      ClientsStayOkWithReply(f, s, Failing("command failed"));
    }
  }

  lemma SendStep(f: FilingKey, s: State, slot: CommandSlot, t: CommandType, detail: string)
    requires Inv(f, s) && Asking(s)
    requires RequestOf(f, PositionOf(f, s.wf.value)) == Send(slot, t, detail)
    ensures var (s', reply) := HandleCommand(f, s, slot, t, detail);
      Inv(f, WithReply(s', ReplyToCommand(reply)))
  {
    var at := PositionOf(f, s.wf.value);
    assert WorkflowOk(f, s, s.wf.value);
    RequestsAreJustified(f, s, at);
    CommandKeepsInv(f, s, slot, t, detail);
    var (s', reply) := HandleCommand(f, s, slot, t, detail);
    CommandReplyIsOk(f, s', slot, t, detail, reply);
  }

  lemma PostReplyIsOk(f: FilingKey, s: State, response: Response)
    requires Inv(f, s) && s.live.Some?
    requires response.RejectedAnswer? ==> Settled(s, OutcomeRejected)
    ensures Inv(f, WithReply(s, ReplyToPost(Some(response))))
  {
    match ReplyToPost(Some(response))
    case Got(r) => GotIsOk(f, s, r);
    case Failing(message) => ClientsStayOkWithReply(f, s, Failing(message));
  }

  lemma PostStep(f: FilingKey, s: State, saved: bool)
    requires Inv(f, s) && Asking(s)
    requires RequestOf(f, PositionOf(f, s.wf.value)) == PostSubmission
    ensures var (s', response) := HandlePost(f, s, s.wf.value.scenario, saved);
      Inv(f, WithReply(s', ReplyToPost(Some(response))))
  {
    assert WorkflowOk(f, s, s.wf.value);
    RequestsAreJustified(f, s, PositionOf(f, s.wf.value));
    PostKeepsInv(f, s, s.wf.value.scenario, saved);
    var (s', response) := HandlePost(f, s, s.wf.value.scenario, saved);
    PostReplyIsOk(f, s', response);
  }

  lemma AnswerIsOk(f: FilingKey, s: State, answer: Attempted)
    requires Inv(f, s) && s.live.Some?
    requires answer.Got? ==> ResultOk(f, s, PositionOf(f, s.wf.value), answer.result)
    ensures Inv(f, WithReply(s, answer))
  {
    match answer
    case Got(r) => GotIsOk(f, s, r);
    case Failing(message) => ClientsStayOkWithReply(f, s, Failing(message));
  }

  /** Lookups that can be trusted answer with what the services hold. */
  lemma LookUpStep(f: FilingKey, s: State, request: Request)
    requires Inv(f, s) && Asking(s) && Addressable(f)
    requires request == ReadFiling || request == ReadStatus(ProviderOperationID(f))
    ensures Inv(f, WithReply(s, LookUp(f, s, request)))
  {
    AnswerIsOk(f, s, LookUp(f, s, request));
  }

  /** And no answer to one that cannot be trusted proves anything. */
  lemma MisreadStep(f: FilingKey, s: State, answer: Attempted)
    requires Inv(f, s) && Asking(s)
    ensures Inv(f, MisreadCurrent(f, s, answer))
  {
    if !Addressable(f) && Misleading(f, RequestOf(f, PositionOf(f, s.wf.value)), answer) {
      AnswerIsOk(f, s, answer);
    }
  }

  lemma HandleStep(f: FilingKey, s: State, saved: bool)
    requires Inv(f, s) && Asking(s)
    ensures Inv(f, HandleCurrent(f, s, saved))
  {
    var at := PositionOf(f, s.wf.value);
    assert WorkflowOk(f, s, s.wf.value);
    RequestsAreJustified(f, s, at);
    match RequestOf(f, at)
    case ReadFiling =>
      if Addressable(f) { LookUpStep(f, s, ReadFiling); }
    case Send(slot, t, detail) => SendStep(f, s, slot, t, detail);
    case ReadStatus(id) =>
      if Addressable(f) { LookUpStep(f, s, ReadStatus(id)); }
    case PostSubmission => PostStep(f, s, saved);
    case _ =>
  }

  lemma AddedIsOk(f: FilingKey, s: State, m: Msg)
    requires NetOk(f, s) && MsgOk(f, s, m)
    ensures NetOk(f, AddMsg(s, m))
  {
    match m
    case CommandSent(c) =>
      assert forall d :: d in AddMsg(s, m).commandsOut ==> d in s.commandsOut || d == c;
    case PostSent(_) =>
  }

  /** A justified request may be added to the network. */
  lemma SentIsOk(f: FilingKey, s: State, m: Msg)
    requires Inv(f, s) && MsgOk(f, s, m)
    ensures Inv(f, AddMsg(s, m))
  {
    AddedIsOk(f, s, m);
    var s' := AddMsg(s, m);
    assert s' == s.(commandsOut := s'.commandsOut, postsOut := s'.postsOut);
    RequestsMove(f, s, s'.commandsOut, s'.postsOut);
  }

  lemma LoseStep(f: FilingKey, s: State)
    requires Inv(f, s) && Asking(s)
    ensures Inv(f, LoseCurrent(f, s))
  {
    var at := PositionOf(f, s.wf.value);
    assert WorkflowOk(f, s, s.wf.value);
    RequestsAreJustified(f, s, at);
    match RequestOf(f, at)
    case Send(slot, t, detail) =>
      var m := CommandSent(CommandMsg(slot, t, detail));
      SentIsOk(f, s, m);
      ClientsStayOkWithReply(f, AddMsg(s, m), Failing("transport failure"));
    case PostSubmission =>
      var m := PostSent(s.wf.value.scenario);
      SentIsOk(f, s, m);
      GotIsOk(f, AddMsg(s, m), SubmitDone(SubmitOutcome(VerdictAmbiguous, "transport failure")));
    case ReadFiling => ClientsStayOkWithReply(f, s, Failing("transport failure"));
    case ReadStatus(_) => ClientsStayOkWithReply(f, s, Failing("transport failure"));
    case _ =>
  }

  lemma RecvStep(f: FilingKey, s: State, received: Received)
    requires Inv(f, s) && Asking(s)
    ensures Inv(f, ReceiveCurrent(f, s, received))
  {
    if RequestOf(f, PositionOf(f, s.wf.value)) == Receive {
      match received
      case Message(cb) => if cb in s.inbox { GotIsOk(f, s, CallbackReceived(cb)); }
      case Timeout => GotIsOk(f, s, RecvTimedOut);
      case Broken => GotIsOk(f, s, StepFailed("recv failed"));
    }
  }

  lemma WriteKeepsOk(f: FilingKey, s: State, w: Workflow, live: Option<Live>)
    requires Inv(f, s) && WorkflowOk(f, s, w)
    requires live.Some? ==> live.value.reply.None?
    ensures Inv(f, Write(s, w).(live := live))
  {
    var s' := Write(s, w).(live := live);
    forall v | v in s'.past
      ensures WorkflowOk(f, s', v)
    {
      assert WorkflowOk(f, s, v);
      PositionStaysOk(f, s, s', PositionOf(f, v));
    }
  }

  /** A failed step always leads to a position that claims nothing false. */
  lemma AdvanceFailureOk(f: FilingKey, s: State, polls: nat, at: Position, r: StepResult)
    requires PositionOk(f, s, at)
    ensures r.StepFailed? ==> PositionOk(f, s, Advance(f, polls, at, r))
  {
    if r.StepFailed? {
      AdvanceKeepsOk(f, s, polls, at, r);
    }
  }

  /** Results that arrive after the workflow has returned do not change what it returned. */
  lemma SucceededStays(f: FilingKey, w: Workflow, r: StepResult)
    requires w.status.Succeeded? ==> PositionOf(f, w) == Returned(w.status.result)
    ensures var w' := w.(history := w.history + [r]);
      w'.status.Succeeded? ==> PositionOf(f, w') == Returned(w'.status.result)
  {
    var w' := w.(history := w.history + [r]);
    assert w'.history[..|w'.history| - 1] == w.history;
  }

  lemma CheckpointStep(f: FilingKey, s: State)
    requires Inv(f, s)
    ensures Inv(f, CheckpointCurrent(f, s))
  {
    if s.wf.Some? && s.live.Some? && s.live.value.reply.Some? {
      var w := s.wf.value;
      assert WorkflowOk(f, s, w);
      var r := ResultOf(s.live.value.reply.value);
      var w' := w.(history := w.history + [r]);
      assert w'.history[..|w'.history| - 1] == w.history;
      assert PositionOf(f, w') == Advance(f, w.polls, PositionOf(f, w), r);
      AdvanceFailureOk(f, s, w.polls, PositionOf(f, w), r);
      assert WorkflowOk(f, s, w') by { SucceededStays(f, w, r); }
      WriteKeepsOk(f, s, w', Some(Live(0, None)));
    }
  }

  lemma SettleStep(f: FilingKey, s: State)
    requires Inv(f, s) && Asking(s)
    ensures Inv(f, SettleCurrent(f, s))
  {
    var w := s.wf.value;
    assert WorkflowOk(f, s, w);
    match PositionOf(f, w)
    case Returned(result) => WriteKeepsOk(f, s, w.(status := Succeeded(result)), None);
    case Failed(_) => WriteKeepsOk(f, s, w.(status := Errored), None);
    case _ =>
  }

  /** Cancelling and resuming change the status only, and the live reply stays as it is. */
  lemma StatusStep(f: FilingKey, s: State, status: RunStatus)
    requires Inv(f, s) && s.wf.Some? && !status.Succeeded?
    ensures Inv(f, Write(s, s.wf.value.(status := status)))
  {
    var w := s.wf.value.(status := status);
    assert WorkflowOk(f, s, s.wf.value);
    WriteKeepsOk(f, s, w, None);
    var s' := Write(s, w);
    assert LiveOk(f, s') by {
      if s.live.Some? && s.live.value.reply.Some? && s.live.value.reply.value.Got? {
        PositionStaysOk(f, s, s', Advance(f, s.wf.value.polls, PositionOf(f, s.wf.value),
            s.live.value.reply.value.result));
      }
    }
    forall v | v in s'.past
      ensures WorkflowOk(f, s', v)
    {
      assert v == w || WorkflowOk(f, s, v);
      PositionStaysOk(f, s, s', PositionOf(f, v));
    }
  }

  /** Whether a request is justified depends on the services alone. */
  lemma MsgStaysOk(f: FilingKey, s: State, s': State, m: Msg)
    requires MsgOk(f, s, m) && s'.cell == s.cell && s'.commands == s.commands
    ensures MsgOk(f, s', m)
  {
  }

  lemma UnderWayIsOk(f: FilingKey, s: State, m: Msg)
    requires NetOk(f, s) && UnderWay(s, m)
    ensures MsgOk(f, s, m) && MsgOk(f, RemoveMsg(s, m), m)
  {
    MsgStaysOk(f, s, RemoveMsg(s, m), m);
  }

  lemma RemovingShrinks(s: State, m: Msg)
    ensures var s' := RemoveMsg(s, m);
      && s'.commandsOut <= s.commandsOut && s'.postsOut <= s.postsOut
      && s' == s.(commandsOut := s'.commandsOut, postsOut := s'.postsOut)
  {
  }

  lemma RemovedIsOk(f: FilingKey, s: State, m: Msg)
    requires NetOk(f, s)
    ensures NetOk(f, RemoveMsg(s, m))
  {
    RemovingShrinks(s, m);
    NetShrinks(f, s, RemoveMsg(s, m));
  }

  lemma DropStep(f: FilingKey, s: State, m: Msg)
    requires Inv(f, s)
    ensures Inv(f, RemoveMsg(s, m))
  {
    RemovedIsOk(f, s, m);
    var s' := RemoveMsg(s, m);
    assert s' == s.(commandsOut := s'.commandsOut, postsOut := s'.postsOut);
    RequestsMove(f, s, s'.commandsOut, s'.postsOut);
  }

  lemma HandledIsOk(f: FilingKey, s: State, m: Msg, saved: bool)
    requires Inv(f, s) && MsgOk(f, s, m)
    ensures Inv(f, HandleMsg(f, s, m, saved))
  {
    match m
    case CommandSent(c) => CommandKeepsInv(f, s, c.slot, c.commandType, c.detail);
    case PostSent(scenario) => PostKeepsInv(f, s, scenario, saved);
  }

  lemma DeliverStep(f: FilingKey, s: State, m: Msg, saved: bool)
    requires Inv(f, s) && UnderWay(s, m)
    ensures Inv(f, HandleMsg(f, RemoveMsg(s, m), m, saved))
  {
    UnderWayIsOk(f, s, m);
    DropStep(f, s, m);
    HandledIsOk(f, RemoveMsg(s, m), m, saved);
  }

  /** Replacing the entry by a grown one, with a goroutine that suits it. */
  lemma EntryStep(f: FilingKey, s: State, e: Entry, worker: Option<Stage>)
    requires Inv(f, s) && s.cell.entry.Some?
    requires EntryOk(ProviderOperationID(f), e) && EntryGrows(s.cell.entry.value, e)
    requires worker.Some? ==> !e.callbackFinished && (worker.value == Calling ==> e.outcome == OutcomeAccepted)
    ensures Inv(f, s.(cell := s.cell.(entry := Some(e)), worker := worker))
  {
    var s' := s.(cell := s.cell.(entry := Some(e)), worker := worker);
    assert LedgerOk(f, s') && Keeps(s, s');
    ClientsStayOk(f, s, s');
  }

  lemma WorkerStep(f: FilingKey, s: State, worker: Option<Stage>)
    requires Inv(f, s)
    requires worker.Some? ==> worker.value == Waiting && s.cell.entry.Some? && !s.cell.entry.value.callbackFinished
    ensures Inv(f, s.(worker := worker))
  {
    ClientsStayOk(f, s, s.(worker := worker));
  }

  lemma FireStep(f: FilingKey, s: State, saved: bool)
    requires Inv(f, s)
    ensures Inv(f, FireWorker(s, saved))
  {
    if s.worker == Some(Waiting) {
      var e := s.cell.entry.value;
      if e.status == Processing && !saved {
        WorkerStep(f, s, None);
      } else {
        EntryStep(f, s, Complete(e), Some(Calling));
      }
    }
  }

  lemma CallBackStep(f: FilingKey, s: State, second: bool)
    requires Inv(f, s)
    ensures Inv(f, CallBackOnce(f, s, second))
  {
    var s' := CallBackOnce(f, s, second);
    assert LedgerOk(f, s') && Keeps(s, s');
    ClientsStayOk(f, s, s');
  }

  lemma FinishStep(f: FilingKey, s: State, saved: bool)
    requires Inv(f, s)
    ensures Inv(f, FinishWorker(s, saved))
  {
    if s.worker == Some(Calling) {
      EntryStep(f, s, s.cell.entry.value.(callbackFinished := saved), None);
    }
  }

  lemma ReconcileStep(f: FilingKey, s: State, detail: string)
    requires Inv(f, s)
    ensures Inv(f, ReconcileOutcome(f, s, detail))
  {
    if Addressable(f) && s.cell.entry.Some? && s.cell.entry.value.status == Completed
        && s.cell.entry.value.outcome != NoOutcome {
      SentIsOk(f, s, OutcomeMsg(s.cell.entry.value.outcome, detail));
    }
  }

  lemma MisjudgeStep(f: FilingKey, s: State, o: Outcome, detail: string)
    requires Inv(f, s)
    ensures Inv(f, MisjudgeOutcome(f, s, o, detail))
  {
    if !Addressable(f) && o != NoOutcome {
      SentIsOk(f, s, OutcomeMsg(o, detail));
    }
  }

  /** Losing, restoring or restarting the execution leaves the services alone. */
  lemma ExecutionStep(f: FilingKey, s: State, wf: Option<Workflow>, live: Option<Live>, faults: nat)
    requires Inv(f, s) && (wf.Some? ==> wf.value in s.past)
    requires live.Some? ==> wf.Some? && (live.value.reply.None? || live.value.reply.value.Failing?)
    ensures Inv(f, s.(wf := wf, live := live, faults := faults))
  {
    var s' := s.(wf := wf, live := live, faults := faults);
    forall v | v in s'.past
      ensures WorkflowOk(f, s', v)
    {
      assert WorkflowOk(f, s, v);
      PositionStaysOk(f, s, s', PositionOf(f, v));
    }
  }

  lemma RetryStep(f: FilingKey, s: State)
    requires Inv(f, s)
    ensures Inv(f, RetryCurrent(f, s))
  {
    if CanRetry(f, s) {
      ExecutionStep(f, s, s.wf, Some(Live(s.live.value.tries + 1, None)), s.faults);
    }
  }

  lemma ExecuteKeepsInv(f: FilingKey, s: State, a: Action)
    requires Inv(f, s) && IsExecution(a)
    ensures Inv(f, Execute(f, s, a))
  {
    if a.Retry? {
      RetryStep(f, s);
    } else if a.Checkpoint? {
      CheckpointStep(f, s);
    } else if Asking(s) {
      match a
      case Handle(saved) => HandleStep(f, s, saved);
      case Misread(answer) => MisreadStep(f, s, answer);
      case Lose => LoseStep(f, s);
      case Recv(received) => RecvStep(f, s, received);
      case Settle => SettleStep(f, s);
    }
  }

  lemma LifecycleKeepsInv(f: FilingKey, s: State, a: Action)
    requires Inv(f, s) && IsLifecycle(a)
    ensures Inv(f, Lifecycle(s, a))
  {
    var s' := Lifecycle(s, a);
    if s' != s {
      if a.Start? {
        WriteKeepsOk(f, s, Workflow(a.scenario, a.polls, Running, []), s.live);
      } else if a.Cancel? {
        StatusStep(f, s, Cancelled);
      } else if a.Resume? {
        StatusStep(f, s, Running);
      } else {
        ExecutionStep(f, s, s'.wf, s'.live, s'.faults);
        assert s' == s.(wf := s'.wf, live := s'.live, faults := s'.faults);
      }
    }
  }

  lemma DuplicateStep(f: FilingKey, s: State, m: Msg)
    requires Inv(f, s) && UnderWay(s, m)
    ensures Inv(f, AddMsg(s, m))
  {
    UnderWayIsOk(f, s, m);
    SentIsOk(f, s, m);
  }

  lemma NetworkKeepsInv(f: FilingKey, s: State, a: Action)
    requires Inv(f, s) && IsNetwork(a)
    ensures Inv(f, Network(f, s, a))
  {
    match a
    case Deliver(m, saved) => if UnderWay(s, m) { DeliverStep(f, s, m, saved); }
    case Duplicate(m) => if UnderWay(s, m) { DuplicateStep(f, s, m); }
    case Drop(m) => DropStep(f, s, m);
    case Reconcile(detail) => ReconcileStep(f, s, detail);
    case Misjudge(o, detail) => MisjudgeStep(f, s, o, detail);
  }

  lemma SeedStep(f: FilingKey, s: State, scenario: Scenario)
    requires Inv(f, s) && s.commands == map[]
    ensures Inv(f, s.(row := Some(FilingRow(scenario, Ready, None))))
  {
    ClientsStayOk(f, s, s.(row := Some(FilingRow(scenario, Ready, None))));
  }

  lemma AtServicesKeepsInv(f: FilingKey, s: State, a: Action)
    requires Inv(f, s) && !IsExecution(a) && !IsLifecycle(a) && !IsNetwork(a)
    ensures Inv(f, AtServices(f, s, a))
  {
    match a
    case Seed(scenario) => if s.commands == map[] { SeedStep(f, s, scenario); }
    case Fire(saved) => FireStep(f, s, saved);
    case CallBack(second) => CallBackStep(f, s, second);
    case FinishCallback(saved) => FinishStep(f, s, saved);
    case GiveUp => WorkerStep(f, s, None);
    case RestartProvider => WorkerStep(f, s, ResumeWorker(s).worker);
  }

  /** Every step of the composed system keeps the invariant. */
  lemma StepKeepsInv(f: FilingKey, s: State, a: Action)
    requires Inv(f, s)
    ensures Inv(f, Step(f, s, a))
  {
    if IsExecution(a) {
      ExecuteKeepsInv(f, s, a);
    } else if IsLifecycle(a) {
      LifecycleKeepsInv(f, s, a);
    } else if IsNetwork(a) {
      NetworkKeepsInv(f, s, a);
    } else {
      AtServicesKeepsInv(f, s, a);
    }
  }

  /** Every reachable state satisfies the invariant. */
  lemma {:induction false} RunKeepsInv(f: FilingKey, s: State, actions: seq<Action>)
    requires Inv(f, s)
    ensures Inv(f, RunAll(f, s, actions))
    decreases |actions|
  {
    if actions != [] {
      StepKeepsInv(f, s, actions[0]);
      RunKeepsInv(f, Step(f, s, actions[0]), actions[1..]);
    }
  }
}
