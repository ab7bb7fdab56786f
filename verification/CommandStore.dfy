/** The Accountable command endpoint: idempotency keys and the filing state machine
    share one serializable transaction. */
module CommandStore {
  import opened Domain
  import opened Totals

  datatype FilingState = Ready | Submitting | Submitted | NeedsReview | Accepted | Rejected

  datatype CommandType =
    | PrepareFilingSubmission
    | MarkFilingSubmitted
    | MarkFilingAccepted
    | MarkFilingRejected
    | MarkFilingNeedsReview
    | UnknownCommand(name: string)

  datatype CommandRequest = CommandRequest(
    key: string, commandType: CommandType, filing: FilingKey, providerOperation: string, detail: string)

  datatype CommandResult = CommandResult(
    filingId: string, newState: FilingState, providerOperation: string, applied: bool, duplicates: nat)

  datatype FilingRow = FilingRow(scenario: Scenario, state: FilingState, providerOperation: Option<string>)

  datatype CommandRow = CommandRow(request: CommandRequest, result: CommandResult, duplicates: nat)

  datatype Store = Store(filings: map<FilingKey, FilingRow>, commands: map<string, CommandRow>)

  /** Conflict is the 409 answer, Failure every other refusal. */
  datatype Reply = Done(result: CommandResult) | Conflict | Failure

  predicate Terminal(s: FilingState) {
    s == Accepted || s == Rejected
  }

  function Rank(s: FilingState): nat {
    match s
    case Ready => 0
    case Submitting => 1
    case Submitted => 2
    case NeedsReview => 3
    case Accepted => 4
    case Rejected => 4
  }

  function Transition(t: CommandType): Option<FilingState> {
    match t
    case PrepareFilingSubmission => Some(Submitting)
    case MarkFilingSubmitted => Some(Submitted)
    case MarkFilingAccepted => Some(Accepted)
    case MarkFilingRejected => Some(Rejected)
    case MarkFilingNeedsReview => Some(NeedsReview)
    case UnknownCommand(_) => None
  }

  predicate AllowsState(t: CommandType, s: FilingState) {
    match t
    case PrepareFilingSubmission => s == Ready || s == Submitting
    case MarkFilingSubmitted => s == Submitting
    case MarkFilingAccepted => s == Submitting || s == Submitted || s == NeedsReview
    case MarkFilingRejected => s == Submitting || s == Submitted || s == NeedsReview
    case MarkFilingNeedsReview => s == Submitting || s == Submitted || s == NeedsReview
    case UnknownCommand(_) => false
  }

  // ---------- One request against the two rows it locks ----------

  /** The filing row and the command row that one request reads and writes. */
  datatype Slot = Slot(row: Option<FilingRow>, command: Option<CommandRow>)

  function OperationText(row: FilingRow): string {
    if row.providerOperation.Some? then row.providerOperation.value else ""
  }

  function Commit(req: CommandRequest, row: FilingRow): (Slot, Reply) {
    var result := CommandResult(req.filing.filingId, row.state, OperationText(row), true, 0);
    (Slot(Some(row), Some(CommandRow(req, result, 0))), Done(result))
  }

  /** The transaction, seen from the two rows it locks. `taken` says that another filing
      already owns the requested provider operation ID, which the unique index refuses. */
  function Decide(slot: Slot, req: CommandRequest, taken: bool): (Slot, Reply) {
    if req.key == "" || Transition(req.commandType).None? then (slot, Failure)
    else if slot.command.Some? then
      var stored := slot.command.value;
      if stored.request != req then (slot, Conflict)
      else
        var n := stored.duplicates + 1;
        (slot.(command := Some(stored.(duplicates := n))),
         Done(stored.result.(applied := false, duplicates := n)))
    else if slot.row.None? then (slot, Failure)
    else
      var row := slot.row.value;
      var newState := Transition(req.commandType).value;
      if !AllowsState(req.commandType, row.state) then (slot, Conflict)
      else if req.commandType != PrepareFilingSubmission then
        Commit(req, row.(state := newState))
      else if req.providerOperation == "" then (slot, Failure)
      else if row.providerOperation != None && row.providerOperation != Some(req.providerOperation) then
        (slot, Conflict)
      else if taken then (slot, Failure)
      else Commit(req, row.(state := newState, providerOperation := Some(req.providerOperation)))
  }

  // ---------- One request against the whole store ----------

  predicate Taken(s: Store, req: CommandRequest) {
    exists g | g in s.filings :: g != req.filing && s.filings[g].providerOperation == Some(req.providerOperation)
  }

  function SlotOf(s: Store, req: CommandRequest): Slot {
    Slot(Lookup(s.filings, req.filing), Lookup(s.commands, req.key))
  }

  function Apply(s: Store, req: CommandRequest): (Store, Reply) {
    var (slot, reply) := Decide(SlotOf(s, req), req, Taken(s, req));
    (Store(
       if slot.row.Some? then s.filings[req.filing := slot.row.value] else s.filings,
       if slot.command.Some? then s.commands[req.key := slot.command.value] else s.commands),
     reply)
  }

  /** How many repeats each stored command has absorbed. */
  ghost function DuplicateCounts(s: Store): map<string, nat> {
    map k | k in s.commands :: s.commands[k].duplicates
  }

  predicate AppliedNow(reply: Reply) {
    reply.Done? && reply.result.applied
  }

  /** Exactly what one request may change: nothing, one duplicate counter, or one filing
      and one new command row. */
  lemma ApplyCases(s: Store, req: CommandRequest)
    requires forall k :: k in s.commands ==> s.commands[k].result.applied
    ensures var (s', reply) := Apply(s, req);
      if AppliedNow(reply) then
        && req.key != "" && req.key !in s.commands && req.filing in s.filings
        && AllowsState(req.commandType, s.filings[req.filing].state)
        && Transition(req.commandType) == Some(reply.result.newState)
        && s'.filings == s.filings[req.filing := s'.filings[req.filing]]
        && s'.filings[req.filing].state == reply.result.newState
        && s'.filings[req.filing].scenario == s.filings[req.filing].scenario
        && s'.commands == s.commands[req.key := CommandRow(req, reply.result, 0)]
      else if reply.Done? then
        && req.key in s.commands && s.commands[req.key].request == req
        && s'.filings == s.filings
        && s'.commands == s.commands[req.key := s.commands[req.key].(duplicates := s.commands[req.key].duplicates + 1)]
        && reply.result == s.commands[req.key].result.(applied := false,
            duplicates := s.commands[req.key].duplicates + 1)
      else
        s' == s
  {
    assert req.filing in s.filings ==> s.filings[req.filing := s.filings[req.filing]] == s.filings;
    assert req.key in s.commands ==> s.commands[req.key := s.commands[req.key]] == s.commands;
  }

  /** The states from which a command may move a filing, by rank: the intent before anything was
      submitted, the mark right after it, a review or an outcome until there is an outcome. */
  lemma AllowedExactlyByRank(t: CommandType, s: FilingState)
    ensures AllowsState(t, s) <==>
      match t
      case PrepareFilingSubmission => Rank(s) <= Rank(Submitting)
      case MarkFilingSubmitted => Rank(s) == Rank(Submitting)
      case UnknownCommand(_) => false
      case _ => Rank(Submitting) <= Rank(s) <= Rank(NeedsReview)
  {
  }

  /** The operation that a filing may be given: a real one, its own if it has one, and nobody else's. */
  predicate MayOwn(s: Store, f: FilingKey, operation: string)
    requires f in s.filings
  {
    && operation != ""
    && s.filings[f].providerOperation in {None, Some(operation)}
    && forall g :: g in s.filings && g != f ==> s.filings[g].providerOperation != Some(operation)
  }

  /** When each answer is given, as a caller can tell from the tables beforehand. */
  lemma AnsweredExactly(s: Store, req: CommandRequest)
    requires forall k :: k in s.commands ==> s.commands[k].result.applied
    ensures var reply := Apply(s, req).1;
      var known := req.key != "" && !req.commandType.UnknownCommand?;
      var isNew := known && req.key !in s.commands && req.filing in s.filings;
      && (AppliedNow(reply) <==>
            && isNew && AllowsState(req.commandType, s.filings[req.filing].state)
            && (req.commandType == PrepareFilingSubmission ==> MayOwn(s, req.filing, req.providerOperation)))
      && (reply.Done? && !reply.result.applied <==>
            known && req.key in s.commands && s.commands[req.key].request == req)
      && (reply == Conflict <==>
            || (known && req.key in s.commands && s.commands[req.key].request != req)
            || (isNew && !AllowsState(req.commandType, s.filings[req.filing].state))
            || (isNew && req.commandType == PrepareFilingSubmission && req.providerOperation != ""
                && s.filings[req.filing].providerOperation !in {None, Some(req.providerOperation)}))
  {
  }

  /** What an applied command answers and leaves: the filing's new state, and the operation that
      its row then holds, which only an intent sets. */
  lemma AnswerNamesOperation(s: Store, req: CommandRequest)
    requires forall k :: k in s.commands ==> s.commands[k].result.applied
    requires AppliedNow(Apply(s, req).1)
    ensures var (s', reply) := Apply(s, req); var result := reply.result;
      && req.filing in s.filings && req.filing in s'.filings
      && result.filingId == req.filing.filingId && result.duplicates == 0
      && result.newState == s'.filings[req.filing].state
      && (result.providerOperation == "" <==> s'.filings[req.filing].providerOperation in {None, Some("")})
      && (result.providerOperation != "" ==>
            s'.filings[req.filing].providerOperation == Some(result.providerOperation))
      && (req.commandType == PrepareFilingSubmission ==> result.providerOperation == req.providerOperation != "")
      && (req.commandType != PrepareFilingSubmission ==>
            s'.filings[req.filing].providerOperation == s.filings[req.filing].providerOperation)
  {
  }

  // ---------- Whole command streams ----------

  predicate Sound(s: Store) {
    forall k :: k in s.commands ==>
      && s.commands[k].request.key == k
      && s.commands[k].result.applied
  }

  datatype Trace = Trace(store: Store, replies: seq<Reply>)

  function Run(s: Store, reqs: seq<CommandRequest>): (t: Trace)
    ensures |t.replies| == |reqs|
    decreases |reqs|
  {
    if reqs == [] then Trace(s, [])
    else
      var (s', reply) := Apply(s, reqs[0]);
      var rest := Run(s', reqs[1..]);
      Trace(rest.store, [reply] + rest.replies)
  }

  /** The commands that took effect on one filing, in order. */
  function AppliedLog(f: FilingKey, reqs: seq<CommandRequest>, replies: seq<Reply>): seq<CommandType>
    requires |reqs| == |replies|
  {
    if reqs == [] then []
    else (if reqs[0].filing == f && AppliedNow(replies[0]) then [reqs[0].commandType] else [])
         + AppliedLog(f, reqs[1..], replies[1..])
  }

  /** The state a log leads to, when every command in it is permitted in turn. */
  function Fold(s: FilingState, log: seq<CommandType>): Option<FilingState>
    decreases |log|
  {
    if log == [] then Some(s)
    else if AllowsState(log[0], s) then Fold(Transition(log[0]).value, log[1..])
    else None
  }

  lemma SoundStep(s: Store, req: CommandRequest)
    requires Sound(s)
    ensures Sound(Apply(s, req).0)
    ensures Apply(s, req).0.filings.Keys == s.filings.Keys
  {
    ApplyCases(s, req);
  }

  /** The store refines its log: over any stream, with any keys, every filing's state is the
      fold of the commands that were answered as applied. */
  lemma {:induction false} StateIsFoldOfLog(s: Store, reqs: seq<CommandRequest>, f: FilingKey)
    requires Sound(s) && f in s.filings
    ensures var t := Run(s, reqs);
      && Sound(t.store) && f in t.store.filings
      && Fold(s.filings[f].state, AppliedLog(f, reqs, t.replies)) == Some(t.store.filings[f].state)
    decreases |reqs|
  {
    if reqs != [] {
      var (s', reply) := Apply(s, reqs[0]);
      var rest := Run(s', reqs[1..]);
      ApplyCases(s, reqs[0]);
      SoundStep(s, reqs[0]);
      StateIsFoldOfLog(s', reqs[1..], f);
      var t := Run(s, reqs);
      assert t.replies[1..] == rest.replies;
      var log := AppliedLog(f, reqs, t.replies);
      var tail := AppliedLog(f, reqs[1..], rest.replies);
      if reqs[0].filing == f && AppliedNow(reply) {
        assert log == [reqs[0].commandType] + tail;
        assert log[1..] == tail;
      } else {
        assert log == tail;
      }
    }
  }

  function Count(log: seq<CommandType>, of: set<CommandType>): nat {
    if log == [] then 0 else (if log[0] in of then 1 else 0) + Count(log[1..], of)
  }

  const OUTCOME_COMMANDS: set<CommandType> := {MarkFilingAccepted, MarkFilingRejected}

  /** Along any permitted log the rank never falls, the submitted mark and the outcome
      appear at most once each, and nothing follows an outcome. */
  lemma {:induction false} FoldNeverGoesBack(s: FilingState, log: seq<CommandType>)
    requires Fold(s, log).Some?
    ensures Rank(s) <= Rank(Fold(s, log).value)
    ensures Count(log, {MarkFilingSubmitted}) <= (if Rank(s) >= 2 then 0 else 1)
    ensures Count(log, OUTCOME_COMMANDS) <= (if Terminal(s) then 0 else 1)
    ensures Terminal(s) ==> log == []
    ensures Terminal(Fold(s, log).value) && !Terminal(s) ==>
              log != [] && log[|log| - 1] in OUTCOME_COMMANDS
    decreases |log|
  {
    if log != [] {
      FoldNeverGoesBack(Transition(log[0]).value, log[1..]);
      if log[1..] == [] { assert log[|log| - 1] == log[0]; } else { assert log[|log| - 1] == log[1..][|log| - 2]; }
    }
  }

  /** Over any stream: ranks only rise, at most one submitted mark and one outcome ever
      apply to a filing, and a terminal filing never changes again. */
  lemma StreamKeepsOrder(s: Store, reqs: seq<CommandRequest>, f: FilingKey)
    requires Sound(s) && f in s.filings
    ensures var t := Run(s, reqs); var log := AppliedLog(f, reqs, t.replies);
      && f in t.store.filings
      && Rank(s.filings[f].state) <= Rank(t.store.filings[f].state)
      && Count(log, {MarkFilingSubmitted}) <= 1
      && Count(log, OUTCOME_COMMANDS) <= 1
      && (Terminal(s.filings[f].state) ==> log == [] && t.store.filings[f].state == s.filings[f].state)
  {
    StateIsFoldOfLog(s, reqs, f);
    FoldNeverGoesBack(s.filings[f].state, AppliedLog(f, reqs, Run(s, reqs).replies));
  }

  /** Every stored command answered with its filing's ID, its command's state and the operation
      that the filing holds, an intent with the one it asked for. */
  ghost predicate ResultsNameOperations(s: Store) {
    forall k :: k in s.commands ==>
      var c := s.commands[k];
      && c.result.filingId == c.request.filing.filingId
      && Transition(c.request.commandType) == Some(c.result.newState)
      && c.request.filing in s.filings
      && (c.result.providerOperation != "" ==>
            s.filings[c.request.filing].providerOperation == Some(c.result.providerOperation))
      && (c.request.commandType == PrepareFilingSubmission ==>
            c.result.providerOperation == c.request.providerOperation != "")
  }

  /** A filing's operation, once it is set, never changes. */
  lemma OperationStays(s: Store, req: CommandRequest, f: FilingKey)
    requires Sound(s) && f in s.filings && s.filings[f].providerOperation.Some?
    ensures var s' := Apply(s, req).0;
      f in s'.filings && s'.filings[f].providerOperation == s.filings[f].providerOperation
  {
  }

  lemma ResultsStayNamed(s: Store, req: CommandRequest)
    requires Sound(s) && ResultsNameOperations(s)
    ensures ResultsNameOperations(Apply(s, req).0)
  {
    var s' := Apply(s, req).0;
    ApplyCases(s, req);
    if AppliedNow(Apply(s, req).1) { AnswerNamesOperation(s, req); }
    forall k | k in s'.commands && k in s.commands && s.commands[k].result.providerOperation != ""
      ensures s.commands[k].request.filing in s'.filings
      ensures s'.filings[s.commands[k].request.filing].providerOperation ==
                Some(s.commands[k].result.providerOperation)
    {
      OperationStays(s, req, s.commands[k].request.filing);
    }
  }

  /** Over any stream: what a stored command answered stays what its filing's row says. */
  lemma {:induction false} StoredResultsNameOperations(s: Store, reqs: seq<CommandRequest>)
    requires Sound(s) && ResultsNameOperations(s)
    ensures var t := Run(s, reqs).store; Sound(t) && ResultsNameOperations(t)
    decreases |reqs|
  {
    if reqs != [] {
      ResultsStayNamed(s, reqs[0]);
      SoundStep(s, reqs[0]);
      StoredResultsNameOperations(Apply(s, reqs[0]).0, reqs[1..]);
    }
  }

  /** A stored command keeps its request and its result for ever; only its counter grows. */
  lemma {:induction false} RowsPersist(s: Store, reqs: seq<CommandRequest>, k: string)
    requires Sound(s) && k in s.commands
    ensures var t := Run(s, reqs).store;
      && Sound(t) && k in t.commands
      && t.commands[k].request == s.commands[k].request
      && t.commands[k].result == s.commands[k].result
      && t.commands[k].duplicates >= s.commands[k].duplicates
    decreases |reqs|
  {
    if reqs != [] {
      ApplyCases(s, reqs[0]);
      SoundStep(s, reqs[0]);
      RowsPersist(Apply(s, reqs[0]).0, reqs[1..], k);
    }
  }

  /** Idempotent replay at any distance: after `later`, repeating the request answers the
      original result as not applied and changes one counter; another request under the
      same key is refused and changes nothing. */
  lemma ReplayAtAnyDistance(s: Store, req: CommandRequest, later: seq<CommandRequest>, other: CommandRequest)
    requires Sound(s) && AppliedNow(Apply(s, req).1)
    requires other.key == req.key && other != req
    ensures var original := Apply(s, req).1.result;
      var t := Run(Apply(s, req).0, later).store;
      var (again, answer) := Apply(t, req);
      && req.key in t.commands
      && answer == Done(original.(applied := false, duplicates := t.commands[req.key].duplicates + 1))
      && again.filings == t.filings
      && again.commands == t.commands[req.key := t.commands[req.key].(duplicates := t.commands[req.key].duplicates + 1)]
      && Apply(t, other).0 == t
      && !Apply(t, other).1.Done?
  {
    ApplyCases(s, req);
    SoundStep(s, req);
    var s' := Apply(s, req).0;
    RowsPersist(s', later, req.key);
    var t := Run(s', later).store;
    ApplyCases(t, req);
    ApplyCases(t, other);
  }

  function Successes(replies: seq<Reply>): nat {
    if replies == [] then 0 else (if replies[0].Done? then 1 else 0) + Successes(replies[1..])
  }

  ghost function Accounted(s: Store): nat {
    |s.commands| + Total(DuplicateCounts(s))
  }

  lemma OneAnswerIsAccountedFor(s: Store, req: CommandRequest)
    requires Sound(s)
    ensures var (s', reply) := Apply(s, req);
      Accounted(s') == Accounted(s) + (if reply.Done? then 1 else 0)
  {
    var (s', reply) := Apply(s, req);
    ApplyCases(s, req);
    if reply.Done? {
      var n := s'.commands[req.key].duplicates;
      assert DuplicateCounts(s') == DuplicateCounts(s)[req.key := n];
      TotalUpdate(DuplicateCounts(s), req.key, n);
    }
  }

  /** Every successful answer is either a stored command or a counted duplicate. */
  lemma {:induction false} AnswersAreAccountedFor(s: Store, reqs: seq<CommandRequest>)
    requires Sound(s)
    ensures var t := Run(s, reqs); Accounted(t.store) == Accounted(s) + Successes(t.replies)
    decreases |reqs|
  {
    if reqs != [] {
      var (s', reply) := Apply(s, reqs[0]);
      OneAnswerIsAccountedFor(s, reqs[0]);
      SoundStep(s, reqs[0]);
      AnswersAreAccountedFor(s', reqs[1..]);
      var t := Run(s, reqs);
      assert t.replies[0] == reply && t.replies[1..] == Run(s', reqs[1..]).replies;
    }
  }

  // ---------- The server object ----------

  /** The service over its two tables. A refused request rolls the transaction back. */
  class CommandServer {
    var filings: map<FilingKey, FilingRow>
    var commands: map<string, CommandRow>

    function State(): Store
      reads this
    {
      Store(filings, commands)
    }

    constructor (filings: map<FilingKey, FilingRow>)
      ensures State() == Store(filings, map[])
    {
      this.filings, this.commands := filings, map[];
    }

    method ApplyCommand(req: CommandRequest) returns (reply: Reply)
      modifies this
      ensures State() == Apply(old(State()), req).0
      ensures reply == Apply(old(State()), req).1
    {
      if req.key == "" {
        return Failure;
      }
      var target := Transition(req.commandType);
      if target == None {
        return Failure;
      }
      var newState := target.value;
      if req.key in commands {
        var stored := commands[req.key];
        if stored.request != req {
          return Conflict;
        }
        var res := stored.result.(applied := false);
        commands := commands[req.key := stored.(duplicates := stored.duplicates + 1)];
        res := res.(duplicates := commands[req.key].duplicates);
        return Done(res);
      }
      if req.filing !in filings {
        return Failure;
      }
      var current := filings[req.filing];
      var operation := current.providerOperation;
      if !AllowsState(req.commandType, current.state) {
        return Conflict;
      }
      if req.commandType == PrepareFilingSubmission {
        if req.providerOperation == "" {
          return Failure;
        }
        if operation != None && operation != Some(req.providerOperation) {
          return Conflict;
        }
        if exists g | g in filings :: g != req.filing && filings[g].providerOperation == Some(req.providerOperation) {
          return Failure;
        }
        operation := Some(req.providerOperation);
      }
      filings := filings[req.filing := current.(state := newState, providerOperation := operation)];
      var res := CommandResult(req.filing.filingId, newState,
                               if operation.Some? then operation.value else "", true, 0);
      commands := commands[req.key := CommandRow(req, res, 0)];
      return Done(res);
    }
  }
}
