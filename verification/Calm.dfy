/** What the workflow does when nothing goes wrong: whatever it is told, it records and returns. */
module Calm {
  import opened Domain
  import opened CommandStore
  import opened ProviderLedger
  import opened Filing
  import opened Protocol
  import opened ProtocolInvariant
  import opened Guarantees
  import opened Runs

  /** What there is around a workflow: its filing, its configuration, and the provider's side. */
  datatype Scene = Scene(row: FilingRow, polls: nat, scenario: Scenario, cell: Cell, worker: Option<Stage>,
    marked: bool)

  predicate Shows(s: State, x: Scene) {
    && s.row == Some(x.row) && s.cell == x.cell && s.worker == x.worker
    && (SubmittedSlot in s.commands) == x.marked
  }

  /** The workflow asks at `at`, in this scene. */
  predicate Waits(f: FilingKey, s: State, at: Position, x: Scene) {
    && Asking(s) && PositionOf(f, s.wf.value) == at
    && s.wf.value.polls == x.polls && s.wf.value.scenario == x.scenario && Shows(s, x)
  }

  ghost predicate Works(f: FilingKey, s: State, at: Position, x: Scene) {
    Addressable(f) && Inv(f, s) && Waits(f, s, at, x)
  }

  lemma WorksOn(f: FilingKey, s: State, a: Action, at: Position, x: Scene)
    requires Addressable(f) && Inv(f, s) && Waits(f, Exchanged(f, s, a), at, x)
    ensures Works(f, Exchanged(f, s, a), at, x)
  {
    ExchangeKeepsInv(f, s, a);
  }

  predicate Open(row: FilingRow) {
    row.state == Submitting || row.state == Submitted
  }

  const UNTOLD := "no callback and authority still processing"

  /** The next round of the wait, or the review that ends it. */
  function Rounds(x: Scene, poll: nat, id: string): Position {
    if poll < x.polls then AtRecv(poll, id)
    else AtRecord(NeedsReview, UNTOLD, CheckFinal(FilingResult(ReviewNeeded, UNTOLD)))
  }

  /** Where a workflow goes on that takes its operation for accepted. */
  function Onward(f: FilingKey, x: Scene, state: FilingState): Position {
    if state != Submitted then AtMarkSubmitted(ProviderOperationID(f)) else Rounds(x, 0, ProviderOperationID(f))
  }

  // ---------- Lookups ----------

  predicate LooksUp(at: Position) {
    at.AtFindExisting? || at.AtResolve? || at.AtPollStatus?
  }

  /** The provider holds the operation, and this is what it says of it. */
  predicate Holds(f: FilingKey, cell: Cell, status: Progress, o: Outcome) {
    && cell.entry.Some? && cell.entry.value.id == ProviderOperationID(f)
    && cell.entry.value.status == status && cell.entry.value.outcome == o
  }

  lemma LookupAnswers(f: FilingKey, s: State, at: Position, x: Scene)
    requires Works(f, s, at, x) && LooksUp(at)
    ensures var status := if x.cell.entry.None? then NotFound
          else Found(ProviderOperationID(f), x.cell.entry.value.status, x.cell.entry.value.outcome);
      Step(f, s, Handle(true)) == WithReply(s, Got(StatusRead(status)))
  {
    assert WorkflowOk(f, s, s.wf.value);
  }

  lemma LookedUpWaits(f: FilingKey, s: State, at: Position, x: Scene, status: StatusResponse, next: Position)
    requires Waits(f, s, at, x) && Step(f, s, Handle(true)) == WithReply(s, Got(StatusRead(status)))
    requires Advance(f, x.polls, at, StatusRead(status)) == next
    ensures Waits(f, Exchanged(f, s, Handle(true)), next, x)
    ensures Exchanged(f, s, Handle(true)).live == Some(Live(0, None))
  {
    Exchange(f, s, Handle(true), StatusRead(status));
  }

  /** Where a completed operation takes the workflow: to the recording of its outcome. The reason
      it gives, what it returns, and whether it reads the filing once more, depend on who asked. */
  function ReasonFor(at: Position, id: string): string {
    match at
    case AtFindExisting(_) => "adopted completed submission " + id
    case AtResolve(_) => "resolved after ambiguous submit"
    case _ => "via status poll (callback missing)"
  }

  function RecordingOf(at: Position, id: string, o: Outcome): Position {
    var text := match at
      case AtFindExisting(_) => "adopted submission " + id
      case AtResolve(_) => ""
      case _ => "via status poll (callback missing)";
    var result := FilingResult(FromProvider(o), text);
    AtRecord(if o == NoOutcome then NeedsReview else MapOutcome(o), ReasonFor(at, id),
             if at.AtPollStatus? then CheckFinal(result) else Return(result))
  }

  function Reason(f: FilingKey, at: Position): string {
    ReasonFor(at, ProviderOperationID(f))
  }

  function Recording(f: FilingKey, at: Position, o: Outcome): Position {
    RecordingOf(at, ProviderOperationID(f), o)
  }

  /** Whatever operation a lookup finds completed, its ID and its outcome are those that go on
      record. One without an outcome sends the filing to review, from the wait as if nothing had
      been found. */
  lemma CompletedAdvances(f: FilingKey, polls: nat, at: Position, id: string, o: Outcome)
    requires LooksUp(at)
    ensures Advance(f, polls, at, StatusRead(Found(id, Completed, o))) ==
              if at.AtPollStatus? && o == NoOutcome
              then AtRecord(NeedsReview, UNTOLD, CheckFinal(FilingResult(ReviewNeeded, UNTOLD)))
              else RecordingOf(at, id, o)
  {
  }

  lemma CompletedIsRecorded(f: FilingKey, s: State, at: Position, x: Scene, o: Outcome)
    requires Works(f, s, at, x) && LooksUp(at) && Holds(f, x.cell, Completed, o) && o != NoOutcome
    ensures Works(f, Exchanged(f, s, Handle(true)), Recording(f, at, o), x)
  {
    LookupAnswers(f, s, at, x);
    CompletedAdvances(f, x.polls, at, ProviderOperationID(f), o);
    LookedUpWaits(f, s, at, x, Found(ProviderOperationID(f), Completed, o), Recording(f, at, o));
    WorksOn(f, s, Handle(true), Recording(f, at, o), x);
  }

  /** An operation that is not completed is waited for, and one that is absent is submitted, except
      by a workflow that waits already. */
  function Following(f: FilingKey, at: Position, x: Scene): Position
    requires LooksUp(at)
  {
    match at
    case AtPollStatus(poll, id) => Rounds(x, poll + 1, id)
    case AtFindExisting(state) => if x.cell.entry.Some? then Onward(f, x, state) else AtSubmit(state)
    case AtResolve(state) => if x.cell.entry.Some? then Onward(f, x, state) else AtResubmit(state)
  }

  lemma UncompletedAdvances(f: FilingKey, at: Position, x: Scene)
    requires LooksUp(at) && (x.cell.entry.Some? ==> x.cell.entry.value.status == Processing)
    ensures var status := if x.cell.entry.None? then NotFound
          else Found(ProviderOperationID(f), x.cell.entry.value.status, x.cell.entry.value.outcome);
      Advance(f, x.polls, at, StatusRead(status)) == Following(f, at, x)
  {
  }

  lemma UncompletedIsFollowed(f: FilingKey, s: State, at: Position, x: Scene)
    requires Works(f, s, at, x) && LooksUp(at)
    requires x.cell.entry.Some? ==> x.cell.entry.value.status == Processing
    ensures Works(f, Exchanged(f, s, Handle(true)), Following(f, at, x), x)
    ensures Exchanged(f, s, Handle(true)).live == Some(Live(0, None))
  {
    var status := if x.cell.entry.None? then NotFound
        else Found(ProviderOperationID(f), x.cell.entry.value.status, x.cell.entry.value.outcome);
    LookupAnswers(f, s, at, x);
    UncompletedAdvances(f, at, x);
    LookedUpWaits(f, s, at, x, status, Following(f, at, x));
    WorksOn(f, s, Handle(true), Following(f, at, x), x);
  }

  // ---------- One operation throughout ----------

  /** From a submission on, the workflow is about one operation. */
  predicate About(at: Position, id: string) {
    match at
    case AtMarkSubmitted(own) => own == id
    case AtRecv(_, own) => own == id
    case AtPollStatus(_, own) => own == id
    case AtRecord(_, _, _) => true
    case AtFinalRead(_) => true
    case Returned(_) => true
    case Failed(_) => true
    case _ => false
  }

  lemma AboutStays(f: FilingKey, polls: nat, at: Position, r: StepResult, id: string)
    requires About(at, id)
    ensures About(Advance(f, polls, at, r), id)
  {
  }

  lemma {:induction false} AboutAllAlong(f: FilingKey, polls: nat, h: seq<StepResult>, i: nat, id: string)
    requires i <= |h| && About(Replay(f, polls, h[..i]), id)
    ensures About(Replay(f, polls, h), id)
    decreases |h| - i
  {
    if i == |h| {
      assert h[..i] == h;
    } else {
      ReplayStep(f, polls, h, i);
      AboutStays(f, polls, Replay(f, polls, h[..i]), h[i], id);
      AboutAllAlong(f, polls, h, i + 1, id);
    }
  }

  lemma FoundIsAbout(f: FilingKey, polls: nat, state: FilingState, id: string, o: Outcome)
    ensures About(Advance(f, polls, AtFindExisting(state), StatusRead(Found(id, Processing, o))), id)
  {
  }

  predicate AsksAbout(request: Request, id: string) {
    request != PostSubmission && (request.ReadStatus? ==> request.id == id)
  }

  lemma AboutAsks(f: FilingKey, at: Position, id: string)
    requires About(at, id)
    ensures AsksAbout(RequestOf(f, at), id)
  {
  }

  /** Once the workflow has found an operation in progress, every later lookup of its is for that
      operation, over any history, and it never submits. */
  lemma AdoptedIsFollowed(f: FilingKey, polls: nat, h: seq<StepResult>, i: nat, id: string, o: Outcome)
    requires i < |h| && Replay(f, polls, h[..i]).AtFindExisting? && h[i] == StatusRead(Found(id, Processing, o))
    ensures AsksAbout(RequestOf(f, Replay(f, polls, h)), id)
  {
    ReplayStep(f, polls, h, i);
    FoundIsAbout(f, polls, Replay(f, polls, h[..i]).state, id, o);
    AboutAllAlong(f, polls, h, i + 1, id);
    AboutAsks(f, Replay(f, polls, h), id);
  }

  // ---------- Callbacks ----------

  lemma TimesOut(f: FilingKey, s: State, poll: nat, id: string, x: Scene)
    requires Works(f, s, AtRecv(poll, id), x)
    ensures Works(f, Exchanged(f, s, Recv(Timeout)), AtPollStatus(poll, id), x)
  {
    Exchange(f, s, Recv(Timeout), RecvTimedOut);
    WorksOn(f, s, Recv(Timeout), AtPollStatus(poll, id), x);
  }

  lemma CallbackAdvances(f: FilingKey, polls: nat, poll: nat, id: string, cb: Callback)
    ensures Advance(f, polls, AtRecv(poll, id), CallbackReceived(cb)) ==
              if cb.outcome == NoOutcome
              then AtRecord(NeedsReview, UNTOLD, CheckFinal(FilingResult(ReviewNeeded, UNTOLD)))
              else AtRecord(MapOutcome(cb.outcome), "via callback " + cb.id,
                            CheckFinal(FilingResult(FromProvider(cb.outcome), "via callback " + cb.id)))
  {
  }

  function CallbackRecording(cb: Callback): Position {
    var text := "via callback " + cb.id;
    AtRecord(Accepted, text, CheckFinal(FilingResult(FromProvider(OutcomeAccepted), text)))
  }

  /** A callback that has arrived ends the wait; it says accepted, as the provider does. */
  lemma CallbackIsRecorded(f: FilingKey, s: State, poll: nat, id: string, x: Scene, cb: Callback)
    requires Works(f, s, AtRecv(poll, id), x) && cb in s.inbox
    ensures Works(f, Exchanged(f, s, Recv(Message(cb))), CallbackRecording(cb), x)
    ensures cb.outcome == OutcomeAccepted && Settled(s, OutcomeAccepted)
  {
    CallbackAdvances(f, x.polls, poll, id, cb);
    Exchange(f, s, Recv(Message(cb)), CallbackReceived(cb));
    WorksOn(f, s, Recv(Message(cb)), CallbackRecording(cb), x);
  }

  // ---------- Recording ----------

  function OutcomeOnRecord(f: FilingKey, o: Outcome, reason: string): CommandRequest {
    CommandRequest(WorkflowID(f) + "-outcome", if o == OutcomeAccepted then MarkFilingAccepted else MarkFilingRejected,
                   f, "", reason)
  }

  function ReviewOnRecord(f: FilingKey, reason: string): CommandRequest {
    CommandRequest(WorkflowID(f) + "-needs-review", MarkFilingNeedsReview, f, "", reason)
  }

  /** The filing with its outcome, and the reason on record. */
  predicate RecordedAs(f: FilingKey, s: State, x: Scene, o: Outcome, reason: string) {
    && Shows(s, x.(row := x.row.(state := MapOutcome(o))))
    && OutcomeSlot in s.commands && s.commands[OutcomeSlot].request == OutcomeOnRecord(f, o, reason)
  }

  lemma FreeOutcomeIsStored(f: FilingKey, s: State, x: Scene, o: Outcome, reason: string)
    requires OutcomeSlot !in s.commands && Shows(s, x) && Open(x.row)
    requires o == OutcomeAccepted || o == OutcomeRejected
    ensures var (s', reply) := HandleCommand(f, s, OutcomeSlot, OutcomeCommand(MapOutcome(o)), reason);
      reply.Done? && RecordedAs(f, s', x, o, reason)
  {
    CommandKeysAreCanonical(f);
    assert CommandKey(f, OutcomeSlot)[0] == 'f';
  }

  lemma OutcomeIsStored(f: FilingKey, s: State, x: Scene, o: Outcome, reason: string)
    requires Inv(f, s) && Shows(s, x) && Open(x.row) && (o == OutcomeAccepted || o == OutcomeRejected)
    ensures var (s', reply) := HandleCommand(f, s, OutcomeSlot, OutcomeCommand(MapOutcome(o)), reason);
      reply.Done? && RecordedAs(f, s', x, o, reason)
  {
    assert OutcomeSlot !in s.commands;
    FreeOutcomeIsStored(f, s, x, o, reason);
  }

  predicate ReviewedAs(f: FilingKey, s: State, x: Scene, reason: string) {
    && Shows(s, x.(row := x.row.(state := NeedsReview)))
    && ReviewSlot in s.commands && s.commands[ReviewSlot].request == ReviewOnRecord(f, reason)
  }

  lemma ReviewIsStored(f: FilingKey, s: State, x: Scene, reason: string)
    requires Inv(f, s) && Shows(s, x) && Open(x.row)
    ensures var (s', reply) := HandleCommand(f, s, ReviewSlot, MarkFilingNeedsReview, reason);
      reply.Done? && ReviewedAs(f, s', x, reason)
  {
    CommandKeysAreCanonical(f);
    assert CommandKey(f, ReviewSlot)[0] == 'f';
  }

  /** A command that is answered: the exchange leaves what the command left. */
  lemma CommandStands(f: FilingKey, s: State, at: Position, x: Scene, slot: CommandSlot, t: CommandType,
          detail: string, after: State, reply: Reply, x': Scene)
    requires Waits(f, s, at, x) && RequestOf(f, at) == Send(slot, t, detail)
    requires HandleCommand(f, s, slot, t, detail) == (after, reply) && reply.Done? && Shows(after, x')
    requires x'.polls == x.polls && x'.scenario == x.scenario
    ensures Step(f, s, Handle(true)) == WithReply(after, Got(CommandDone(reply.result)))
    ensures Waits(f, Exchanged(f, s, Handle(true)), Advance(f, x.polls, at, CommandDone(reply.result)), x')
  {
    assert after.wf == s.wf && after.live == s.live;
    Exchange(f, s, Handle(true), CommandDone(reply.result));
  }

  /** What the caller of a recording does next. */
  function After(next: AfterRecord): Position {
    if next.Return? then Returned(next.result) else AtFinalRead(next.result)
  }

  lemma RecordingIsSent(f: FilingKey, polls: nat, o: Outcome, reason: string, next: AfterRecord)
    requires o == OutcomeAccepted || o == OutcomeRejected
    ensures var at := AtRecord(MapOutcome(o), reason, next);
      && RequestOf(f, at) == Send(OutcomeSlot, OutcomeCommand(MapOutcome(o)), reason)
      && forall r: CommandResult :: Advance(f, polls, at, CommandDone(r)) == After(next)
  {
  }

  lemma RecordStands(f: FilingKey, s: State, o: Outcome, reason: string, next: AfterRecord, x: Scene)
    requires Inv(f, s) && Waits(f, s, AtRecord(MapOutcome(o), reason, next), x)
    requires Open(x.row) && (o == OutcomeAccepted || o == OutcomeRejected)
    ensures RecordedAs(f, Step(f, s, Handle(true)), x, o, reason)
    ensures Waits(f, Exchanged(f, s, Handle(true)), After(next), x.(row := x.row.(state := MapOutcome(o))))
  {
    var at, t := AtRecord(MapOutcome(o), reason, next), OutcomeCommand(MapOutcome(o));
    OutcomeIsStored(f, s, x, o, reason);
    RecordingIsSent(f, x.polls, o, reason, next);
    var (after, reply) := HandleCommand(f, s, OutcomeSlot, t, reason);
    CommandStands(f, s, at, x, OutcomeSlot, t, reason, after, reply, x.(row := x.row.(state := MapOutcome(o))));
  }

  lemma RecordingLands(f: FilingKey, s: State, o: Outcome, reason: string, next: AfterRecord, x: Scene)
    requires Works(f, s, AtRecord(MapOutcome(o), reason, next), x)
    requires Open(x.row) && (o == OutcomeAccepted || o == OutcomeRejected)
    ensures RecordedAs(f, Step(f, s, Handle(true)), x, o, reason)
    ensures Works(f, Exchanged(f, s, Handle(true)), After(next), x.(row := x.row.(state := MapOutcome(o))))
  {
    RecordStands(f, s, o, reason, next, x);
    WorksOn(f, s, Handle(true), After(next), x.(row := x.row.(state := MapOutcome(o))));
  }

  lemma ReviewIsSent(f: FilingKey, polls: nat, reason: string, next: AfterRecord)
    ensures var at := AtRecord(NeedsReview, reason, next);
      && RequestOf(f, at) == Send(ReviewSlot, MarkFilingNeedsReview, reason)
      && forall r: CommandResult :: Advance(f, polls, at, CommandDone(r)) == After(next)
  {
  }

  lemma ReviewStands(f: FilingKey, s: State, reason: string, next: AfterRecord, x: Scene)
    requires Inv(f, s) && Waits(f, s, AtRecord(NeedsReview, reason, next), x) && Open(x.row)
    ensures ReviewedAs(f, Step(f, s, Handle(true)), x, reason)
    ensures Waits(f, Exchanged(f, s, Handle(true)), After(next), x.(row := x.row.(state := NeedsReview)))
  {
    ReviewIsStored(f, s, x, reason);
    ReviewIsSent(f, x.polls, reason, next);
    var (after, reply) := HandleCommand(f, s, ReviewSlot, MarkFilingNeedsReview, reason);
    CommandStands(f, s, AtRecord(NeedsReview, reason, next), x, ReviewSlot, MarkFilingNeedsReview, reason,
        after, reply, x.(row := x.row.(state := NeedsReview)));
  }

  lemma SentToReview(f: FilingKey, s: State, reason: string, next: AfterRecord, x: Scene)
    requires Works(f, s, AtRecord(NeedsReview, reason, next), x) && Open(x.row)
    ensures ReviewedAs(f, Step(f, s, Handle(true)), x, reason)
    ensures Works(f, Exchanged(f, s, Handle(true)), After(next), x.(row := x.row.(state := NeedsReview)))
  {
    ReviewStands(f, s, reason, next, x);
    WorksOn(f, s, Handle(true), After(next), x.(row := x.row.(state := NeedsReview)));
  }

  // ---------- The mark ----------

  lemma MarkIsStored(f: FilingKey, s: State, x: Scene)
    requires Inv(f, s) && Shows(s, x) && Open(x.row)
    ensures var (s', reply) := HandleCommand(f, s, SubmittedSlot, MarkFilingSubmitted, "");
      reply.Done? && Shows(s', x.(row := x.row.(state := Submitted), marked := true))
  {
    assert CommandKey(f, SubmittedSlot)[0] == 'f';
    if SubmittedSlot in s.commands { assert CommandOk(f, SubmittedSlot, s.commands[SubmittedSlot]); }
  }

  lemma MarkStands(f: FilingKey, s: State, id: string, x: Scene)
    requires Inv(f, s) && Waits(f, s, AtMarkSubmitted(id), x) && Open(x.row)
    ensures Waits(f, Exchanged(f, s, Handle(true)), Rounds(x, 0, id),
                  x.(row := x.row.(state := Submitted), marked := true))
  {
    MarkIsStored(f, s, x);
    var (after, reply) := HandleCommand(f, s, SubmittedSlot, MarkFilingSubmitted, "");
    CommandStands(f, s, AtMarkSubmitted(id), x, SubmittedSlot, MarkFilingSubmitted, "", after, reply,
        x.(row := x.row.(state := Submitted), marked := true));
  }

  lemma MarkedOn(f: FilingKey, s: State, id: string, x: Scene)
    requires Works(f, s, AtMarkSubmitted(id), x) && Open(x.row)
    ensures Works(f, Exchanged(f, s, Handle(true)), Rounds(x, 0, id),
                  x.(row := x.row.(state := Submitted), marked := true))
  {
    MarkStands(f, s, id, x);
    WorksOn(f, s, Handle(true), Rounds(x, 0, id), x.(row := x.row.(state := Submitted), marked := true));
  }

  // ---------- The intent ----------

  lemma ReadStands(f: FilingKey, s: State, at: Position, x: Scene, next: Position)
    requires Addressable(f) && Waits(f, s, at, x) && RequestOf(f, at) == ReadFiling
    requires Advance(f, x.polls, at, FilingRead(x.row)) == next
    ensures Waits(f, Exchanged(f, s, Handle(true)), next, x)
  {
    Exchange(f, s, Handle(true), FilingRead(x.row));
  }

  lemma ValidationStands(f: FilingKey, s: State, x: Scene)
    requires Works(f, s, AtValidate, x) && x.row.state != NeedsReview && !Terminal(x.row.state)
    ensures Waits(f, Exchanged(f, s, Handle(true)),
                  if x.row.state == Ready then AtPrepare else AtFindExisting(x.row.state), x)
  {
    ReadStands(f, s, AtValidate, x, if x.row.state == Ready then AtPrepare else AtFindExisting(x.row.state));
  }

  function FinalAlready(row: FilingRow): FilingResult {
    FilingResult(AlreadyFinal, if row.state == Accepted then "filing already in state accepted"
                               else "filing already in state rejected")
  }

  lemma FinalAdvances(f: FilingKey, polls: nat, row: FilingRow)
    requires Terminal(row.state)
    ensures Advance(f, polls, AtValidate, FilingRead(row)) == Returned(FinalAlready(row))
  {
    assert "filing already in state " + "accepted" == "filing already in state accepted";
    assert "filing already in state " + "rejected" == "filing already in state rejected";
  }

  /** A filing that is final is reported as such, and nothing is done to it. */
  lemma FinalStands(f: FilingKey, s: State, x: Scene)
    requires Works(f, s, AtValidate, x) && Terminal(x.row.state)
    ensures Waits(f, Exchanged(f, s, Handle(true)), Returned(FinalAlready(x.row)), x)
  {
    FinalAdvances(f, x.polls, x.row);
    ReadStands(f, s, AtValidate, x, Returned(FinalAlready(x.row)));
  }

  function Intending(f: FilingKey, x: Scene): Scene {
    x.(row := x.row.(state := if x.row.state == Ready then Submitting else x.row.state,
                     providerOperation := Some(ProviderOperationID(f))))
  }

  /** The intent is stored once; a workflow that repeats it goes on as if it were new. */
  lemma IntentIsStored(f: FilingKey, s: State, x: Scene)
    requires Inv(f, s) && Shows(s, x) && (x.row.state == Ready || Open(x.row))
    ensures var (s', reply) := HandleCommand(f, s, IntentSlot, PrepareFilingSubmission, "");
      reply.Done? && reply.result.newState == Submitting && Shows(s', Intending(f, x))
  {
    assert ProviderOperationID(f)[0] == 'f' && CommandKey(f, IntentSlot)[0] == 'f';
    if IntentSlot in s.commands { assert CommandOk(f, IntentSlot, s.commands[IntentSlot]); }
  }

  /** The workflow goes on in the state that its intent was answered with. */
  lemma IntentAdvances(f: FilingKey, polls: nat, result: CommandResult)
    ensures Advance(f, polls, AtPrepare, CommandDone(result)) == AtFindExisting(result.newState)
  {
  }

  lemma IntentStands(f: FilingKey, s: State, x: Scene)
    requires Inv(f, s) && Waits(f, s, AtPrepare, x) && (x.row.state == Ready || Open(x.row))
    ensures Waits(f, Exchanged(f, s, Handle(true)), AtFindExisting(Submitting), Intending(f, x))
  {
    IntentIsStored(f, s, x);
    var (after, reply) := HandleCommand(f, s, IntentSlot, PrepareFilingSubmission, "");
    IntentAdvances(f, x.polls, reply.result);
    CommandStands(f, s, AtPrepare, x, IntentSlot, PrepareFilingSubmission, "", after, reply, Intending(f, x));
  }

  // ---------- The end ----------

  /** What a last look at the filing makes of the result. */
  function Verified(result: FilingResult, row: FilingRow): Position {
    if row.state == MapResult(result.outcome) then Returned(result) else Failed("reconcile mismatch")
  }

  lemma FinalReadAdvances(f: FilingKey, polls: nat, result: FilingResult, row: FilingRow)
    ensures Advance(f, polls, AtFinalRead(result), FilingRead(row)) == Verified(result, row)
  {
  }

  /** The last look at the filing: the workflow returns what it recorded, or fails if that is not
      what it finds. */
  lemma FinalReadStands(f: FilingKey, s: State, result: FilingResult, x: Scene)
    requires Works(f, s, AtFinalRead(result), x)
    ensures Waits(f, Exchanged(f, s, Handle(true)), Verified(result, x.row), x)
  {
    FinalReadAdvances(f, x.polls, result, x.row);
    ReadStands(f, s, AtFinalRead(result), x, Verified(result, x.row));
  }

  lemma SettlesWith(f: FilingKey, s: State, result: FilingResult, x: Scene)
    requires Waits(f, s, Returned(result), x)
    ensures var s' := Step(f, s, Settle); Shows(s', x) && s'.wf.Some? && s'.wf.value.status == Succeeded(result)
  {
  }

  // ---------- Undisturbed runs ----------

  /** Nothing fails, nothing is lost, and nobody interferes. */
  predicate CalmAction(a: Action) {
    || (a.Handle? && a.saved) || (a.Recv? && !a.received.Broken?) || a.Retry? || a.Checkpoint? || a.Settle?
    || (a.Fire? && a.saved) || a.CallBack? || (a.FinishCallback? && a.saved)
  }

  predicate AllCalm(actions: seq<Action>) {
    forall a :: a in actions ==> CalmAction(a)
  }

  /** An undisturbed run that ends in success with this result, and leaves this scene. */
  predicate EndsAs(f: FilingKey, s: State, actions: seq<Action>, x: Scene, result: FilingResult) {
    AllCalm(actions) &&
      var s' := RunAll(f, s, actions);
      Shows(s', x) && s'.wf.Some? && s'.wf.value.status == Succeeded(result)
  }

  lemma ExchangeThen(f: FilingKey, s: State, a: Action, rest: seq<Action>, x: Scene, result: FilingResult)
    returns (actions: seq<Action>)
    requires CalmAction(a) && EndsAs(f, Exchanged(f, s, a), rest, x, result)
    ensures EndsAs(f, s, actions, x, result)
  {
    RunExchange(f, s, a, rest);
    actions := [a, Checkpoint] + rest;
  }

  lemma FromReturn(f: FilingKey, s: State, result: FilingResult, x: Scene) returns (actions: seq<Action>)
    requires Waits(f, s, Returned(result), x)
    ensures EndsAs(f, s, actions, x, result)
  {
    SettlesWith(f, s, result, x);
    OneAction(f, s, Settle);
    actions := [Settle];
  }

  /** From what has been recorded on: the workflow returns it, after a last look at the filing if
      it takes one. */
  lemma FromRecorded(f: FilingKey, s: State, next: AfterRecord, x: Scene) returns (actions: seq<Action>)
    requires Works(f, s, After(next), x) && x.row.state == MapResult(next.result.outcome)
    ensures EndsAs(f, s, actions, x, next.result)
  {
    if next.Return? {
      actions := FromReturn(f, s, next.result, x);
    } else {
      FinalReadStands(f, s, next.result, x);
      actions := FromReturn(f, Exchanged(f, s, Handle(true)), next.result, x);
      actions := ExchangeThen(f, s, Handle(true), actions, x, next.result);
    }
  }

  lemma FromRecording(f: FilingKey, s: State, o: Outcome, reason: string, next: AfterRecord, x: Scene)
    returns (actions: seq<Action>)
    requires Works(f, s, AtRecord(MapOutcome(o), reason, next), x) && next.result.outcome == FromProvider(o)
    requires Open(x.row) && (o == OutcomeAccepted || o == OutcomeRejected)
    ensures EndsAs(f, s, actions, x.(row := x.row.(state := MapOutcome(o))), next.result)
  {
    var x' := x.(row := x.row.(state := MapOutcome(o)));
    RecordingLands(f, s, o, reason, next, x);
    actions := FromRecorded(f, Exchanged(f, s, Handle(true)), next, x');
    actions := ExchangeThen(f, s, Handle(true), actions, x', next.result);
  }

  lemma FromReview(f: FilingKey, s: State, reason: string, next: AfterRecord, x: Scene)
    returns (actions: seq<Action>)
    requires Works(f, s, AtRecord(NeedsReview, reason, next), x) && next.result.outcome == ReviewNeeded
    requires Open(x.row)
    ensures EndsAs(f, s, actions, x.(row := x.row.(state := NeedsReview)), next.result)
  {
    var x' := x.(row := x.row.(state := NeedsReview));
    SentToReview(f, s, reason, next, x);
    actions := FromRecorded(f, Exchanged(f, s, Handle(true)), next, x');
    actions := ExchangeThen(f, s, Handle(true), actions, x', next.result);
  }

  // ---------- No outcome is dropped ----------

  /** What surrounds a workflow of an addressable filing that asks. */
  function SceneOf(s: State): Scene
    requires Asking(s) && s.row.Some?
  {
    Scene(s.row.value, s.wf.value.polls, s.wf.value.scenario, s.cell, s.worker, SubmittedSlot in s.commands)
  }

  lemma SettledIsHeld(f: FilingKey, s: State, o: Outcome)
    requires Inv(f, s) && Settled(s, o)
    ensures Holds(f, s.cell, Completed, o) && (o == OutcomeAccepted || o == OutcomeRejected)
  {
  }

  /** Whatever lookup tells an open filing's workflow that its operation is completed, the outcome
      is recorded with the next command, under the filing's own key and with the lookup's reason. */
  lemma ToldOutcomeIsRecorded(f: FilingKey, s: State, o: Outcome)
    requires Inv(f, s) && Addressable(f) && Asking(s) && s.row.Some? && Open(s.row.value) && Settled(s, o)
    requires var at := PositionOf(f, s.wf.value); at.AtFindExisting? || at.AtResolve? || at.AtPollStatus?
    ensures var s' := RunAll(f, s, [Handle(true), Checkpoint, Handle(true)]);
      && s'.row == Some(s.row.value.(state := MapOutcome(o)))
      && OutcomeSlot in s'.commands
      && s'.commands[OutcomeSlot].request == OutcomeOnRecord(f, o, Reason(f, PositionOf(f, s.wf.value)))
  {
    var at, x := PositionOf(f, s.wf.value), SceneOf(s);
    SettledIsHeld(f, s, o);
    CompletedIsRecorded(f, s, at, x, o);
    RecordingLands(f, Exchanged(f, s, Handle(true)), o, Reason(f, at), Recording(f, at, o).next, x);
    ThreeActions(f, s, Handle(true), Checkpoint, Handle(true));
  }

  /** So is what a callback says. */
  lemma CalledBackIsRecorded(f: FilingKey, s: State, cb: Callback)
    requires Inv(f, s) && Addressable(f) && Asking(s) && s.row.Some? && Open(s.row.value)
    requires PositionOf(f, s.wf.value).AtRecv? && cb in s.inbox
    ensures var s' := RunAll(f, s, [Recv(Message(cb)), Checkpoint, Handle(true)]);
      && s'.row == Some(s.row.value.(state := Accepted))
      && OutcomeSlot in s'.commands
      && s'.commands[OutcomeSlot].request == OutcomeOnRecord(f, OutcomeAccepted, "via callback " + cb.id)
  {
    var at, x := PositionOf(f, s.wf.value), SceneOf(s);
    CallbackIsRecorded(f, s, at.poll, at.submissionId, x, cb);
    RecordingLands(f, Exchanged(f, s, Recv(Message(cb))), OutcomeAccepted, "via callback " + cb.id,
        CallbackRecording(cb).next, x);
    ThreeActions(f, s, Recv(Message(cb)), Checkpoint, Handle(true));
  }

  /** The whole rest of the run: the filing ends with that outcome, and so does the workflow. */
  lemma ToldOutcomeIsReturned(f: FilingKey, s: State, at: Position, x: Scene, o: Outcome)
    returns (actions: seq<Action>)
    requires Works(f, s, at, x) && LooksUp(at) && Open(x.row) && Holds(f, x.cell, Completed, o)
    requires o == OutcomeAccepted || o == OutcomeRejected
    ensures EndsAs(f, s, actions, x.(row := x.row.(state := MapOutcome(o))), Recording(f, at, o).next.result)
  {
    var to := Recording(f, at, o);
    CompletedIsRecorded(f, s, at, x, o);
    actions := FromRecording(f, Exchanged(f, s, Handle(true)), o, Reason(f, at), to.next, x);
    actions := ExchangeThen(f, s, Handle(true), actions, x.(row := x.row.(state := MapOutcome(o))), to.next.result);
  }

  lemma ErrorSettles(f: FilingKey, s: State, message: string, x: Scene)
    requires Waits(f, s, Failed(message), x)
    ensures var s' := Step(f, s, Settle); Shows(s', x) && s'.wf.Some? && s'.wf.value.status == Errored
  {
  }

  /** A workflow that finds its filing in another state than it recorded fails. */
  lemma MismatchFails(f: FilingKey, s: State)
    requires Inv(f, s) && Addressable(f) && Asking(s) && s.row.Some?
    requires PositionOf(f, s.wf.value).AtFinalRead?
    requires s.row.value.state != MapResult(PositionOf(f, s.wf.value).result.outcome)
    ensures var s' := RunAll(f, s, [Handle(true), Checkpoint, Settle]);
      s'.row == s.row && s'.cell == s.cell && s'.wf.Some? && s'.wf.value.status == Errored
  {
    FinalReadStands(f, s, PositionOf(f, s.wf.value).result, SceneOf(s));
    ErrorSettles(f, Exchanged(f, s, Handle(true)), "reconcile mismatch", SceneOf(s));
    ThreeActions(f, s, Handle(true), Checkpoint, Settle);
  }

  // ---------- Waiting ----------

  const GAVE_UP := FilingResult(ReviewNeeded, UNTOLD)

  predicate Unfinished(cell: Cell) {
    cell.entry.Some? ==> cell.entry.value.status == Processing
  }

  lemma PollPasses(f: FilingKey, s: State, poll: nat, id: string, x: Scene) returns (s': State)
    requires Works(f, s, AtPollStatus(poll, id), x) && Unfinished(x.cell)
    ensures s' == Exchanged(f, s, Handle(true)) && Works(f, s', Rounds(x, poll + 1, id), x)
  {
    UncompletedIsFollowed(f, s, AtPollStatus(poll, id), x);
    s' := Exchanged(f, s, Handle(true));
  }

  /** One round that brings nothing. */
  lemma RoundPasses(f: FilingKey, s: State, poll: nat, id: string, x: Scene) returns (s1: State, s2: State)
    requires Works(f, s, AtRecv(poll, id), x) && Unfinished(x.cell)
    ensures s1 == Exchanged(f, s, Recv(Timeout)) && s2 == Exchanged(f, s1, Handle(true))
    ensures Works(f, s2, Rounds(x, poll + 1, id), x)
  {
    TimesOut(f, s, poll, id, x);
    s1 := Exchanged(f, s, Recv(Timeout));
    s2 := PollPasses(f, s1, poll, id, x);
  }

  /** The wait for this operation has come to a certain round. */
  ghost predicate InRound(f: FilingKey, s: State, poll: nat, id: string, x: Scene) {
    Works(f, s, Rounds(x, poll, id), x)
  }

  lemma RoundPassesOn(f: FilingKey, s: State, poll: nat, id: string, x: Scene)
    requires InRound(f, s, poll, id, x) && poll < x.polls && Unfinished(x.cell)
    ensures InRound(f, RunAll(f, s, OneRound()), poll + 1, id, x)
  {
    var s1, s2 := RoundPasses(f, s, poll, id, x);
    RunExchange(f, s, Recv(Timeout), [Handle(true), Checkpoint]);
    TwoActions(f, s1, Handle(true), Checkpoint);
  }

  lemma RoundsPass(f: FilingKey, s: State, poll: nat, id: string, x: Scene) returns (actions: seq<Action>, s': State)
    requires InRound(f, s, poll, id, x) && poll <= x.polls && Unfinished(x.cell)
    ensures AllCalm(actions) && RunAll(f, s, actions) == s' && InRound(f, s', x.polls, id, x)
  {
    forall t: State, k: nat | InRound(f, t, k, id, x) && k < x.polls
      ensures InRound(f, RunAll(f, t, OneRound()), k + 1, id, x)
    {
      RoundPassesOn(f, t, k, id, x);
    }
    actions, s' := Repeats(f, s, OneRound(), poll, x.polls, (t: State, k: nat) => InRound(f, t, k, id, x),
        a => CalmAction(a));
  }

  lemma GivesUp(f: FilingKey, s: State, id: string, x: Scene) returns (actions: seq<Action>)
    requires InRound(f, s, x.polls, id, x) && Open(x.row)
    ensures EndsAs(f, s, actions, x.(row := x.row.(state := NeedsReview)), GAVE_UP)
  {
    actions := FromReview(f, s, GAVE_UP.detail, CheckFinal(GAVE_UP), x);
  }

  lemma EndsLater(f: FilingKey, s: State, first: seq<Action>, rest: seq<Action>, x: Scene, result: FilingResult)
    requires AllCalm(first) && EndsAs(f, RunAll(f, s, first), rest, x, result)
    ensures EndsAs(f, s, first + rest, x, result)
  {
    RunConcat(f, s, first, rest);
  }

  /** While the provider does not complete the operation, the workflow waits for exactly as many
      rounds as it is configured for, and then sends the filing to review. */
  lemma SilenceEndsInReview(f: FilingKey, s: State, poll: nat, id: string, x: Scene) returns (actions: seq<Action>)
    requires InRound(f, s, poll, id, x) && poll <= x.polls && Open(x.row) && Unfinished(x.cell)
    ensures EndsAs(f, s, actions, x.(row := x.row.(state := NeedsReview)), GAVE_UP)
  {
    var rounds, s1 := RoundsPass(f, s, poll, id, x);
    var rest := GivesUp(f, s1, id, x);
    EndsLater(f, s, rounds, rest, x.(row := x.row.(state := NeedsReview)), GAVE_UP);
    actions := rounds + rest;
  }

  const POLLED := "via status poll (callback missing)"

  /** A completed operation is noticed in the first round at the latest. */
  lemma WaitConcludes(f: FilingKey, s: State, poll: nat, id: string, x: Scene, o: Outcome)
    returns (actions: seq<Action>)
    requires Works(f, s, AtRecv(poll, id), x) && Open(x.row) && Holds(f, x.cell, Completed, o)
    requires o == OutcomeAccepted || o == OutcomeRejected
    ensures EndsAs(f, s, actions, x.(row := x.row.(state := MapOutcome(o))), FilingResult(FromProvider(o), POLLED))
  {
    TimesOut(f, s, poll, id, x);
    var s1 := Exchanged(f, s, Recv(Timeout));
    actions := ToldOutcomeIsReturned(f, s1, AtPollStatus(poll, id), x, o);
    actions := ExchangeThen(f, s, Recv(Timeout), actions, x.(row := x.row.(state := MapOutcome(o))),
        FilingResult(FromProvider(o), POLLED));
  }

  /** From where the workflow takes its operation for accepted. */
  lemma OnwardConcludes(f: FilingKey, s: State, state: FilingState, x: Scene, o: Outcome)
    returns (actions: seq<Action>, marked: bool)
    requires Works(f, s, Onward(f, x, state), x) && Open(x.row) && Holds(f, x.cell, Completed, o) && x.polls > 0
    requires o == OutcomeAccepted || o == OutcomeRejected
    ensures EndsAs(f, s, actions, x.(row := x.row.(state := MapOutcome(o)), marked := marked),
                   FilingResult(FromProvider(o), POLLED))
    ensures marked == (x.marked || state != Submitted)
  {
    var id := ProviderOperationID(f);
    marked := x.marked || state != Submitted;
    if state == Submitted {
      actions := WaitConcludes(f, s, 0, id, x, o);
    } else {
      MarkedOn(f, s, id, x);
      var x1 := x.(row := x.row.(state := Submitted), marked := true);
      actions := WaitConcludes(f, Exchanged(f, s, Handle(true)), 0, id, x1, o);
      actions := ExchangeThen(f, s, Handle(true), actions, x1.(row := x1.row.(state := MapOutcome(o))),
          FilingResult(FromProvider(o), POLLED));
    }
  }

  // ---------- POSTs ----------

  function Submission(f: FilingKey, x: Scene): SubmitRequest {
    SubmitRequest(ProviderOperationID(f), f.filingId, x.scenario, "/callbacks")
  }

  /** The scene after a POST that is handled and saved. */
  function AfterPost(f: FilingKey, x: Scene): Scene {
    var cell := Post(x.cell, Submission(f, x)).cell;
    var recorded := x.cell.entry.None? && cell.entry.Some? && !cell.entry.value.callbackFinished;
    x.(cell := cell, worker := if recorded then Some(Waiting) else x.worker)
  }

  lemma PostIsHandled(f: FilingKey, s: State, at: Position, x: Scene)
    requires Waits(f, s, at, x) && (at.AtSubmit? || at.AtResubmit?)
    ensures var (after, response) := HandlePost(f, s, x.scenario, true);
      && response == Post(x.cell, Submission(f, x)).response && Shows(after, AfterPost(f, x))
      && after.wf == s.wf && after.live == s.live
      && Step(f, s, Handle(true)) == WithReply(after, ReplyToPost(Some(response)))
  {
  }

  lemma PostStands(f: FilingKey, s: State, at: Position, x: Scene, sub: SubmitOutcome, next: Position)
    requires Works(f, s, at, x) && (at.AtSubmit? || at.AtResubmit?)
    requires Classify(Some(Post(x.cell, Submission(f, x)).response)) == Answered(sub)
    requires Advance(f, x.polls, at, SubmitDone(sub)) == next
    ensures Works(f, Exchanged(f, s, Handle(true)), next, AfterPost(f, x))
  {
    PostIsHandled(f, s, at, x);
    Exchange(f, s, Handle(true), SubmitDone(sub));
    WorksOn(f, s, Handle(true), next, AfterPost(f, x));
  }

  /** What a conclusive or an ambiguous answer to a POST leads to. */
  function Answering(f: FilingKey, at: Position, x: Scene, sub: SubmitOutcome): Position
    requires at.AtSubmit? || at.AtResubmit?
  {
    match sub.verdict
    case VerdictRejected =>
      AtRecord(Rejected, sub.detail, Return(FilingResult(FromProvider(OutcomeRejected), sub.detail)))
    case VerdictAccepted => Onward(f, x, at.state)
    case VerdictAmbiguous => if at.AtSubmit? then AtResolve(at.state) else Onward(f, x, at.state)
  }

  lemma AnswerAdvances(f: FilingKey, at: Position, x: Scene, sub: SubmitOutcome)
    requires at.AtSubmit? || at.AtResubmit?
    ensures Advance(f, x.polls, at, SubmitDone(sub)) == Answering(f, at, x, sub)
  {
  }

  lemma PostIsAnswered(f: FilingKey, s: State, at: Position, x: Scene, sub: SubmitOutcome)
    requires Works(f, s, at, x) && (at.AtSubmit? || at.AtResubmit?)
    requires Classify(Some(Post(x.cell, Submission(f, x)).response)) == Answered(sub)
    ensures Works(f, Exchanged(f, s, Handle(true)), Answering(f, at, x, sub), AfterPost(f, x))
  {
    AnswerAdvances(f, at, x, sub);
    PostStands(f, s, at, x, sub, Answering(f, at, x, sub));
  }

  /** A failed attempt with retries left is taken again. */
  lemma FailureIsRetried(f: FilingKey, s: State, at: Position, after: State, message: string, x: Scene)
    requires Asking(s) && PositionOf(f, s.wf.value) == at && s.live.value.tries < Budget(at)
    requires Step(f, s, Handle(true)) == WithReply(after, Failing(message))
    requires after.wf == s.wf && after.live == s.live && Shows(after, x)
    requires s.wf.value.polls == x.polls && s.wf.value.scenario == x.scenario
    ensures var s' := Step(f, Step(f, s, Handle(true)), Retry);
      Waits(f, s', at, x) && s'.live.value.tries == s.live.value.tries + 1
  {
    assert CanRetry(f, Step(f, s, Handle(true)));
  }

  /** And checkpointed as an error without. */
  lemma FailureStands(f: FilingKey, s: State, at: Position, after: State, message: string, x: Scene)
    requires Asking(s) && PositionOf(f, s.wf.value) == at && s.live.value.tries >= Budget(at)
    requires Step(f, s, Handle(true)) == WithReply(after, Failing(message))
    requires after.wf == s.wf && after.live == s.live && Shows(after, x)
    requires s.wf.value.polls == x.polls && s.wf.value.scenario == x.scenario
    ensures Waits(f, Exchanged(f, s, Handle(true)), Advance(f, x.polls, at, StepFailed(message)), x)
  {
    var w := s.wf.value;
    assert !CanRetry(f, Step(f, s, Handle(true)));
    assert (w.history + [StepFailed(message)])[..|w.history|] == w.history;
  }

  /** What a retryable answer leads to while retries are left: the same POST again. */
  lemma PostIsRetried(f: FilingKey, s: State, at: Position, x: Scene)
    requires Works(f, s, at, x) && (at.AtSubmit? || at.AtResubmit?) && s.live.value.tries < 5
    requires Classify(Some(Post(x.cell, Submission(f, x)).response)).Retryable?
    ensures var s' := RunAll(f, s, [Handle(true), Retry]);
      Works(f, s', at, AfterPost(f, x)) && s'.live.value.tries == s.live.value.tries + 1
  {
    PostIsHandled(f, s, at, x);
    var message := Classify(Some(Post(x.cell, Submission(f, x)).response)).message;
    FailureIsRetried(f, s, at, HandlePost(f, s, x.scenario, true).0, message, AfterPost(f, x));
    TwoActions(f, s, Handle(true), Retry);
    StepKeepsInv(f, s, Handle(true));
    StepKeepsInv(f, Step(f, s, Handle(true)), Retry);
  }

  /** And after the last one: the first submission sends the filing to review, the second one ends
      the workflow with an error. */
  function GivingUp(at: Position, message: string): Position {
    if at.AtSubmit?
    then AtRecord(NeedsReview, "submit retries exhausted: " + message, Return(FilingResult(ReviewNeeded, message)))
    else Failed(message)
  }

  lemma GivingUpAdvances(f: FilingKey, polls: nat, at: Position, message: string)
    requires at.AtSubmit? || at.AtResubmit?
    ensures Advance(f, polls, at, StepFailed(message)) == GivingUp(at, message)
  {
  }

  lemma PostGivesUp(f: FilingKey, s: State, at: Position, x: Scene, message: string)
    requires Works(f, s, at, x) && (at.AtSubmit? || at.AtResubmit?) && s.live.value.tries >= 5
    requires Classify(Some(Post(x.cell, Submission(f, x)).response)) == Retryable(message)
    ensures Works(f, Exchanged(f, s, Handle(true)), GivingUp(at, message), AfterPost(f, x))
  {
    PostIsHandled(f, s, at, x);
    FailureStands(f, s, at, HandlePost(f, s, x.scenario, true).0, message, AfterPost(f, x));
    GivingUpAdvances(f, x.polls, at, message);
    WorksOn(f, s, Handle(true), GivingUp(at, message), AfterPost(f, x));
  }

  /** A step that failed is tried again up to five times, the validation never. */
  lemma RetriedExactly(f: FilingKey, s: State)
    requires s.wf.Some? && s.live.Some? && s.live.value.reply.Some? && s.live.value.reply.value.Failing?
    ensures (Step(f, s, Retry) != s <==>
              s.live.value.tries < if PositionOf(f, s.wf.value) == AtValidate then 0 else 5)
    ensures Step(f, s, Retry) != s ==> Step(f, s, Checkpoint) == s
  {
  }

  /** A final filing's workflow says so and does nothing. */
  lemma FinalIsLeftAlone(f: FilingKey, s: State) returns (actions: seq<Action>)
    requires Inv(f, s) && Addressable(f) && Asking(s) && PositionOf(f, s.wf.value) == AtValidate
    requires s.row.Some? && Terminal(s.row.value.state)
    ensures EndsAs(f, s, actions, SceneOf(s), FinalAlready(s.row.value))
  {
    var x := SceneOf(s);
    FinalStands(f, s, x);
    actions := FromReturn(f, Exchanged(f, s, Handle(true)), FinalAlready(x.row), x);
    actions := ExchangeThen(f, s, Handle(true), actions, x, FinalAlready(x.row));
  }
}
