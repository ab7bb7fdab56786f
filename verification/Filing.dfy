/** The filing workflow. Its position is a function of the checkpointed step results, so a
    crash, a replay or a restored history needs no further state; the method at the end is
    the same workflow written as the sequential program with its bounded poll loop. */
module Filing {
  import opened Domain
  import opened CommandStore
  import opened ProviderLedger

  /** What a step leaves in the history. */
  datatype StepResult =
    | FilingRead(row: FilingRow)
    | CommandDone(result: CommandResult)
    | StatusRead(status: StatusResponse)
    | SubmitDone(outcome: SubmitOutcome)
    | CallbackReceived(callback: Callback)
    | RecvTimedOut
    | StepFailed(message: string)

  /** The outcome field of a workflow result. */
  datatype ResultOutcome = AlreadyFinal | FromProvider(outcome: Outcome) | ReviewNeeded

  datatype FilingResult = FilingResult(outcome: ResultOutcome, detail: string)

  /** What the caller of recordOutcome goes on to do. */
  datatype AfterRecord = Return(result: FilingResult) | CheckFinal(result: FilingResult)

  /** The next step of the workflow, with the local variables that are still live. */
  datatype Position =
    | AtValidate
    | AtPrepare
    | AtFindExisting(state: FilingState)
    | AtSubmit(state: FilingState)
    | AtResolve(state: FilingState)
    | AtResubmit(state: FilingState)
    | AtMarkSubmitted(submissionId: string)
    | AtRecv(poll: nat, submissionId: string)
    | AtPollStatus(poll: nat, submissionId: string)
    | AtRecord(state: FilingState, detail: string, next: AfterRecord)
    | AtFinalRead(result: FilingResult)
    | Returned(result: FilingResult)
    | Failed(message: string)

  function MapOutcome(o: Outcome): FilingState {
    match o
    case OutcomeAccepted => Accepted
    case OutcomeRejected => Rejected
    case NoOutcome => NeedsReview
  }

  function MapResult(o: ResultOutcome): FilingState {
    if o.FromProvider? then MapOutcome(o.outcome) else NeedsReview
  }

  function Finish(next: AfterRecord): Position {
    match next
    case Return(result) => Returned(result)
    case CheckFinal(result) => AtFinalRead(result)
  }

  function RecordThenReturn(o: Outcome, recordDetail: string, resultDetail: string): Position {
    AtRecord(MapOutcome(o), recordDetail, Return(FilingResult(FromProvider(o), resultDetail)))
  }

  function RecordThenCheck(o: ResultOutcome, detail: string): Position {
    AtRecord(MapResult(o), detail, CheckFinal(FilingResult(o, detail)))
  }

  const UNRESOLVED := "no callback and authority still processing"

  /** The head of the poll loop. */
  function Wait(polls: nat, poll: nat, submissionId: string): Position {
    if poll < polls then AtRecv(poll, submissionId) else RecordThenCheck(ReviewNeeded, UNRESOLVED)
  }

  function AfterAcceptance(polls: nat, state: FilingState, submissionId: string): Position {
    if state != Submitted then AtMarkSubmitted(submissionId) else Wait(polls, 0, submissionId)
  }

  /** Leaving the poll loop with an outcome, which may be empty. */
  function Conclude(o: Outcome, detail: string): Position {
    if o == NoOutcome then RecordThenCheck(ReviewNeeded, UNRESOLVED) else RecordThenCheck(FromProvider(o), detail)
  }

  function AfterSubmit(f: FilingKey, polls: nat, state: FilingState, sub: SubmitOutcome): Position {
    if sub.verdict == VerdictRejected then RecordThenReturn(OutcomeRejected, sub.detail, sub.detail)
    else AfterAcceptance(polls, state, ProviderOperationID(f))
  }

  function AlreadyIn(state: FilingState): string {
    "filing already in state " + (if state == Accepted then "accepted" else "rejected")
  }

  function AfterValidate(f: FilingKey, row: FilingRow): Position {
    if Terminal(row.state) then Returned(FilingResult(AlreadyFinal, AlreadyIn(row.state)))
    else if OperationText(row) != "" && OperationText(row) != ProviderOperationID(f)
        then Failed("provider operation mismatch")
    else if row.state == Ready then AtPrepare
    else AtFindExisting(row.state)
  }

  const UNEXPECTED := Failed("unexpected step")

  function Succeed(f: FilingKey, polls: nat, at: Position, r: StepResult): Position {
    match (at, r)
    case (AtValidate, FilingRead(row)) => AfterValidate(f, row)
    case (AtPrepare, CommandDone(result)) => AtFindExisting(result.newState)
    case (AtFindExisting(state), StatusRead(NotFound)) => AtSubmit(state)
    case (AtFindExisting(state), StatusRead(Found(id, Completed, o))) =>
      RecordThenReturn(o, "adopted completed submission " + id, "adopted submission " + id)
    case (AtFindExisting(state), StatusRead(Found(id, Processing, _))) => AfterAcceptance(polls, state, id)
    case (AtResolve(state), StatusRead(NotFound)) => AtResubmit(state)
    case (AtResolve(state), StatusRead(Found(_, Completed, o))) =>
        RecordThenReturn(o, "resolved after ambiguous submit", "")
    case (AtResolve(state), StatusRead(Found(_, Processing, _))) =>
        AfterAcceptance(polls, state, ProviderOperationID(f))
    case (AtResubmit(state), SubmitDone(sub)) => AfterSubmit(f, polls, state, sub)
    case (AtMarkSubmitted(id), CommandDone(_)) => Wait(polls, 0, id)
    case (AtRecv(_, _), CallbackReceived(cb)) => Conclude(cb.outcome, "via callback " + cb.id)
    case (AtRecv(poll, id), RecvTimedOut) => AtPollStatus(poll, id)
    case (AtPollStatus(poll, id), StatusRead(Found(_, Completed, o))) =>
        Conclude(o, "via status poll (callback missing)")
    case (AtPollStatus(poll, id), StatusRead(_)) => Wait(polls, poll + 1, id)
    case (AtRecord(_, _, next), CommandDone(_)) => Finish(next)
    case (AtFinalRead(result), FilingRead(row)) =>
      if row.state != MapResult(result.outcome) then Failed("reconcile mismatch") else Returned(result)
    case _ => UNEXPECTED
  }

  function Advance(f: FilingKey, polls: nat, at: Position, r: StepResult): Position {
    match at
    case Returned(_) => at
    case Failed(_) => at
    case AtSubmit(state) =>
      (match r
       case SubmitDone(sub) =>
         if sub.verdict == VerdictAmbiguous then AtResolve(state) else AfterSubmit(f, polls, state, sub)
       case StepFailed(message) =>
         AtRecord(NeedsReview, "submit retries exhausted: " + message, Return(FilingResult(ReviewNeeded, message)))
       case _ => UNEXPECTED)
    case _ =>
      if r.StepFailed? then Failed(r.message) else Succeed(f, polls, at, r)
  }

  function Replay(f: FilingKey, polls: nat, history: seq<StepResult>): Position
    decreases |history|
  {
    if history == [] then AtValidate
    else Advance(f, polls, Replay(f, polls, history[..|history| - 1]), history[|history| - 1])
  }

  // ---------- The effect of each step ----------

  datatype Request =
    | ReadFiling
    | Send(slot: CommandSlot, commandType: CommandType, detail: string)
    | ReadStatus(id: string)
    | PostSubmission
    | Receive
    | Nothing

  function OutcomeCommand(state: FilingState): CommandType {
    match state
    case Accepted => MarkFilingAccepted
    case Rejected => MarkFilingRejected
    case NeedsReview => MarkFilingNeedsReview
    case _ => UnknownCommand("")
  }

  function RequestOf(f: FilingKey, at: Position): Request {
    match at
    case AtValidate => ReadFiling
    case AtPrepare => Send(IntentSlot, PrepareFilingSubmission, "")
    case AtFindExisting(_) => ReadStatus(ProviderOperationID(f))
    case AtSubmit(_) => PostSubmission
    case AtResolve(_) => ReadStatus(ProviderOperationID(f))
    case AtResubmit(_) => PostSubmission
    case AtMarkSubmitted(_) => Send(SubmittedSlot, MarkFilingSubmitted, "")
    case AtRecv(_, _) => Receive
    case AtPollStatus(_, id) => ReadStatus(id)
    case AtRecord(state, detail, _) =>
      Send(if state == NeedsReview then ReviewSlot else OutcomeSlot, OutcomeCommand(state), detail)
    case AtFinalRead(_) => ReadFiling
    case Returned(_) => Nothing
    case Failed(_) => Nothing
  }

  /** Only the commands that end or review a filing say why. */
  predicate CarriesDetail(t: CommandType) {
    t != PrepareFilingSubmission && t != MarkFilingSubmitted
  }

  function CommandFor(f: FilingKey, slot: CommandSlot, commandType: CommandType, detail: string): CommandRequest {
    CommandRequest(CommandKey(f, slot), commandType, f,
                   if commandType == PrepareFilingSubmission then ProviderOperationID(f) else "",
                   if CarriesDetail(commandType) then detail else "")
  }

  function SubmissionFor(input: FilingInput, callbackUrl: string): SubmitRequest {
    SubmitRequest(ProviderOperationID(input.filing), input.filing.filingId, input.scenario, callbackUrl)
  }

  // ---------- The sequential program ----------

  lemma ReplayStep(f: FilingKey, polls: nat, h: seq<StepResult>, i: nat)
    requires i < |h|
    ensures Replay(f, polls, h[..i + 1]) == Advance(f, polls, Replay(f, polls, h[..i]), h[i])
  {
    assert h[..i + 1][..i] == h[..i];
  }

  lemma {:induction false} ReplayStopped(f: FilingKey, polls: nat, h: seq<StepResult>, i: nat)
    requires i <= |h|
    requires var at := Replay(f, polls, h[..i]); at.Returned? || at.Failed?
    ensures Replay(f, polls, h) == Replay(f, polls, h[..i])
    decreases |h| - i
  {
    if i == |h| {
      assert h[..i] == h;
    } else {
      ReplayStep(f, polls, h, i);
      ReplayStopped(f, polls, h, i + 1);
    }
  }

  /** The results of earlier executions, read back in order. */
  class History {
    const results: seq<StepResult>
    const f: FilingKey
    const polls: nat
    var next: nat

    constructor (f: FilingKey, polls: nat, results: seq<StepResult>)
      ensures this.f == f && this.polls == polls && this.results == results && next == 0
    {
      this.f, this.polls, this.results, next := f, polls, results, 0;
    }

    ghost predicate At(at: Position)
      reads this
    {
      next <= |results| && Replay(f, polls, results[..next]) == at
    }

    /** Runs one step: None when its result has not been checkpointed yet. */
    method Step(ghost at: Position) returns (r: Option<StepResult>)
      requires At(at)
      modifies this
      ensures r.None? ==> At(at) && Replay(f, polls, results) == at
      ensures r.Some? ==> At(Advance(f, polls, at, r.value))
    {
      if next == |results| {
        assert results[..next] == results;
        return None;
      }
      ReplayStep(f, polls, results, next);
      r := Some(results[next]);
      next := next + 1;
    }

    /** The workflow function has returned; later checkpoints cannot exist or are ignored. */
    lemma Stop(at: Position)
      requires At(at) && (at.Returned? || at.Failed?)
      ensures Replay(f, polls, results) == at
    {
      ReplayStopped(f, polls, results, next);
    }
  }

  /** recordOutcome: one step, then whatever the caller does next, or its error. */
  method RecordOutcome(h: History, state: FilingState, detail: string, next: AfterRecord)
    returns (stopped: Option<Position>)
    requires h.At(AtRecord(state, detail, next))
    modifies h
    ensures stopped.Some? ==> Replay(h.f, h.polls, h.results) == stopped.value
    ensures stopped.None? ==> h.At(Finish(next))
  {
    ghost var at := AtRecord(state, detail, next);
    var r := h.Step(at);
    if r.None? {
      return Some(AtRecord(state, detail, next));
    }
    if r.value.StepFailed? {
      h.Stop(Failed(r.value.message));
      return Some(Failed(r.value.message));
    }
    if !r.value.CommandDone? {
      h.Stop(UNEXPECTED);
      return Some(UNEXPECTED);
    }
    return None;
  }

  /** Recording an outcome and returning a result. */
  method RecordAndReturn(h: History, o: Outcome, recordDetail: string, resultDetail: string) returns (end: Position)
    requires h.At(RecordThenReturn(o, recordDetail, resultDetail))
    modifies h
    ensures end == Replay(h.f, h.polls, h.results)
  {
    var result := FilingResult(FromProvider(o), resultDetail);
    var stopped := RecordOutcome(h, MapOutcome(o), recordDetail, Return(result));
    if stopped.Some? {
      return stopped.value;
    }
    h.Stop(Returned(result));
    return Returned(result);
  }

  /** A step that ends the workflow because its result is an error or of the wrong kind. */
  method Abort(h: History, r: StepResult) returns (end: Position)
    requires h.At(if r.StepFailed? then Failed(r.message) else UNEXPECTED)
    ensures end == Replay(h.f, h.polls, h.results)
  {
    end := if r.StepFailed? then Failed(r.message) else UNEXPECTED;
    h.Stop(end);
  }

  /** Submission with its classified retries, resolution by lookup, and one resubmission.
      Some position ends the workflow here; otherwise the operation counts as accepted. */
  method SubmitOnce(h: History, state: FilingState) returns (stopped: Option<Position>)
    requires h.At(AtSubmit(state))
    modifies h
    ensures stopped.Some? ==> Replay(h.f, h.polls, h.results) == stopped.value
    ensures stopped.None? ==> h.At(AfterAcceptance(h.polls, state, ProviderOperationID(h.f)))
  {
    var r := h.Step(AtSubmit(state));
    if r.None? {
      return Some(AtSubmit(state));
    }
    if r.value.StepFailed? {
      var message := r.value.message;
      var result := FilingResult(ReviewNeeded, message);
      stopped := RecordOutcome(h, NeedsReview, "submit retries exhausted: " + message, Return(result));
      if stopped.None? {
        h.Stop(Returned(result));
        stopped := Some(Returned(result));
      }
      return;
    }
    if !r.value.SubmitDone? {
      var end := Abort(h, r.value);
      return Some(end);
    }
    var sub := r.value.outcome;
    if sub.verdict == VerdictAmbiguous {
      r := h.Step(AtResolve(state));
      if r.None? {
        return Some(AtResolve(state));
      }
      if !r.value.StatusRead? {
        var end := Abort(h, r.value);
        return Some(end);
      }
      var st := r.value.status;
      if st.NotFound? {
        r := h.Step(AtResubmit(state));
        if r.None? {
          return Some(AtResubmit(state));
        }
        if !r.value.SubmitDone? {
          var end := Abort(h, r.value);
          return Some(end);
        }
        sub := r.value.outcome;
      } else if st.status == Completed {
        var end := RecordAndReturn(h, st.outcome, "resolved after ambiguous submit", "");
        return Some(end);
      } else {
        sub := SubmitOutcome(VerdictAccepted, "confirmed via status check");
      }
    }
    if sub.verdict == VerdictRejected {
      var end := RecordAndReturn(h, OutcomeRejected, sub.detail, sub.detail);
      return Some(end);
    }
    return None;
  }

  /** One round of the wait: a callback, or else a status lookup. */
  method PollOnce(h: History, poll: nat, submissionId: string)
    returns (stopped: Option<Position>, found: Option<(Outcome, string)>)
    requires poll < h.polls && h.At(Wait(h.polls, poll, submissionId))
    modifies h
    ensures stopped.Some? ==> Replay(h.f, h.polls, h.results) == stopped.value
    ensures stopped.None? && found.Some? ==> h.At(Conclude(found.value.0, found.value.1))
    ensures stopped.None? && found.None? ==> h.At(Wait(h.polls, poll + 1, submissionId))
  {
    var r := h.Step(AtRecv(poll, submissionId));
    if r.None? {
      return Some(AtRecv(poll, submissionId)), None;
    }
    if r.value.CallbackReceived? {
      return None, Some((r.value.callback.outcome, "via callback " + r.value.callback.id));
    }
    if !r.value.RecvTimedOut? {
      var end := Abort(h, r.value);
      return Some(end), None;
    }
    r := h.Step(AtPollStatus(poll, submissionId));
    if r.None? {
      return Some(AtPollStatus(poll, submissionId)), None;
    }
    if !r.value.StatusRead? {
      var end := Abort(h, r.value);
      return Some(end), None;
    }
    var st := r.value.status;
    if st.Found? && st.status == Completed {
      return None, Some((st.outcome, "via status poll (callback missing)"));
    }
    return None, None;
  }

  /** The bounded wait for a callback or a completed status. */
  method AwaitOutcome(h: History, submissionId: string)
    returns (stopped: Option<Position>, outcome: Outcome, detail: string)
    requires h.At(Wait(h.polls, 0, submissionId))
    modifies h
    ensures stopped.Some? ==> Replay(h.f, h.polls, h.results) == stopped.value
    ensures stopped.None? ==> h.At(Conclude(outcome, detail))
  {
    stopped, outcome, detail := None, NoOutcome, "";
    var poll := 0;
    while poll < h.polls
      invariant poll <= h.polls && h.At(Wait(h.polls, poll, submissionId))
      invariant outcome == NoOutcome && stopped.None?
    {
      var found;
      stopped, found := PollOnce(h, poll, submissionId);
      if stopped.Some? {
        return;
      }
      if found.Some? {
        outcome, detail := found.value.0, found.value.1;
        return;
      }
      poll := poll + 1;
    }
  }

  /** Reading the filing and making the intent durable. */
  method DeclareIntent(h: History) returns (stopped: Option<Position>, state: FilingState)
    requires h.At(AtValidate)
    modifies h
    ensures stopped.Some? ==> Replay(h.f, h.polls, h.results) == stopped.value
    ensures stopped.None? ==> h.At(AtFindExisting(state))
  {
    var r := h.Step(AtValidate);
    if r.None? {
      return Some(AtValidate), Ready;
    }
    if !r.value.FilingRead? {
      var end := Abort(h, r.value);
      return Some(end), Ready;
    }
    var filing := r.value.row;
    if Terminal(filing.state) {
      var result := Returned(FilingResult(AlreadyFinal, AlreadyIn(filing.state)));
      h.Stop(result);
      return Some(result), filing.state;
    }
    if OperationText(filing) != "" && OperationText(filing) != ProviderOperationID(h.f) {
      h.Stop(Failed("provider operation mismatch"));
      return Some(Failed("provider operation mismatch")), filing.state;
    }
    state := filing.state;
    if state == Ready {
      r := h.Step(AtPrepare);
      if r.None? {
        return Some(AtPrepare), state;
      }
      if !r.value.CommandDone? {
        var end := Abort(h, r.value);
        return Some(end), state;
      }
      state := r.value.result.newState;
    }
    stopped := None;
  }

  method WaitAndRecord(h: History, submissionId: string) returns (end: Position)
    requires h.At(Wait(h.polls, 0, submissionId))
    modifies h
    ensures end == Replay(h.f, h.polls, h.results)
  {
    var stopped, outcome, detail := AwaitOutcome(h, submissionId);
    if stopped.Some? {
      return stopped.value;
    }
    var final := FromProvider(outcome);
    if outcome == NoOutcome {
      final, detail := ReviewNeeded, UNRESOLVED;
    }
    var result := FilingResult(final, detail);
    stopped := RecordOutcome(h, MapResult(final), detail, CheckFinal(result));
    if stopped.Some? {
      return stopped.value;
    }
    var r := h.Step(AtFinalRead(result));
    if r.None? {
      return AtFinalRead(result);
    }
    if !r.value.FilingRead? {
      end := Abort(h, r.value);
      return;
    }
    end := if r.value.row.state != MapResult(final) then Failed("reconcile mismatch") else Returned(result);
    h.Stop(end);
  }

  /** From acceptance on: mark the filing submitted unless it already is, wait, record. */
  method MarkAndWait(h: History, state: FilingState, submissionId: string) returns (end: Position)
    requires h.At(AfterAcceptance(h.polls, state, submissionId))
    modifies h
    ensures end == Replay(h.f, h.polls, h.results)
  {
    if state != Submitted {
      var r := h.Step(AtMarkSubmitted(submissionId));
      if r.None? {
        return AtMarkSubmitted(submissionId);
      }
      if !r.value.CommandDone? {
        end := Abort(h, r.value);
        return;
      }
    }
    end := WaitAndRecord(h, submissionId);
  }

  /** The workflow program: replaying any checkpointed results leads exactly to the
      position that the specification gives them. */
  method Run(f: FilingKey, polls: nat, checkpoints: seq<StepResult>) returns (end: Position)
    ensures end == Replay(f, polls, checkpoints)
  {
    var h := new History(f, polls, checkpoints);
    var stopped, state := DeclareIntent(h);
    if stopped.Some? {
      return stopped.value;
    }
    var submissionId := ProviderOperationID(f);
    var r := h.Step(AtFindExisting(state));
    if r.None? {
      return AtFindExisting(state);
    }
    if !r.value.StatusRead? {
      end := Abort(h, r.value);
      return;
    }
    var existing := r.value.status;
    var skipSubmit := false;
    if existing.Found? {
      if existing.status == Completed {
        end := RecordAndReturn(h, existing.outcome, "adopted completed submission " + existing.id,
                               "adopted submission " + existing.id);
        return;
      }
      submissionId := existing.id;
      skipSubmit := true;
    }
    if !skipSubmit {
      stopped := SubmitOnce(h, state);
      if stopped.Some? {
        return stopped.value;
      }
    }
    end := MarkAndWait(h, state, submissionId);
  }
}
