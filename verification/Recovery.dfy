/** Nothing gets stuck: from every reachable state some continuation settles the filing, and one
    in which nobody deletes a workflow that has not failed. */
module Recovery {
  import opened Domain
  import opened CommandStore
  import opened ProviderLedger
  import opened Filing
  import opened Protocol
  import opened ProtocolInvariant
  import opened Guarantees
  import opened Runs

  /** The filing is in review, accepted or rejected. */
  predicate Ended(s: State) {
    s.row.Some? && (s.row.value.state == NeedsReview || Terminal(s.row.value.state))
  }

  /** What may be done to a workflow from outside: resuming it, starting a missing one with the
      scenario that Accountable holds and `polls` status polls, and deleting it only once it has
      failed. */
  predicate Usual(s: State, a: Action, polls: nat) {
    match a
    case Delete => s.wf.Some? && s.wf.value.status == Errored
    case Start(scenario, n) => n == polls && s.row.Some? && s.row.value.scenario == scenario
    case Restore(_) => false
    case Seed(_) => false
    case _ => true
  }

  predicate AllUsual(f: FilingKey, s: State, actions: seq<Action>, polls: nat)
    decreases |actions|
  {
    actions != [] ==> Usual(s, actions[0], polls) && AllUsual(f, Step(f, s, actions[0]), actions[1..], polls)
  }

  lemma {:induction false} UsualConcat(f: FilingKey, s: State, a: seq<Action>, b: seq<Action>, polls: nat)
    requires AllUsual(f, s, a, polls) && AllUsual(f, RunAll(f, s, a), b, polls)
    ensures AllUsual(f, s, a + b, polls)
    decreases |a|
  {
    if a == [] {
      assert a + b == b;
    } else {
      assert (a + b)[0] == a[0] && (a + b)[1..] == a[1..] + b;
      UsualConcat(f, Step(f, s, a[0]), a[1..], b, polls);
    }
  }

  /** Nothing is deleted, started, restored or seeded. */
  predicate HandsOff(actions: seq<Action>) {
    forall a :: a in actions ==> !a.Delete? && !a.Start? && !a.Restore? && !a.Seed?
  }

  lemma {:induction false} HandsOffIsUsual(f: FilingKey, s: State, actions: seq<Action>, polls: nat)
    requires HandsOff(actions)
    ensures AllUsual(f, s, actions, polls)
    decreases |actions|
  {
    if actions != [] {
      assert actions[0] in actions && forall a :: a in actions[1..] ==> a in actions;
      HandsOffIsUsual(f, Step(f, s, actions[0]), actions[1..], polls);
    }
  }

  /** The actions take the filing to its end, without deleting or starting anything. */
  predicate Ends(f: FilingKey, s: State, actions: seq<Action>) {
    HandsOff(actions) && Ended(RunAll(f, s, actions))
  }

  /** One more exchange in front. */
  lemma ExchangeFirst(f: FilingKey, s: State, a: Action, rest: seq<Action>) returns (actions: seq<Action>)
    requires (a.Handle? || a.Lose? || a.Recv?) && Ends(f, Exchanged(f, s, a), rest)
    ensures Ends(f, s, actions)
  {
    RunExchange(f, s, a, rest);
    actions := [a, Checkpoint] + rest;
  }

  lemma LastStep(f: FilingKey, s: State)
    requires Ended(Step(f, s, Handle(true)))
    ensures Ends(f, s, [Handle(true)])
  {
    OneAction(f, s, Handle(true));
  }

  lemma WaitEnds(f: FilingKey, s: State, row: FilingRow, polls: nat)
    requires row.state == Submitting || row.state == Submitted
    requires Reaches(f, s, Wait(polls, polls, ProviderOperationID(f)), row, polls)
    ensures Ends(f, s, [Handle(true)])
  {
    Reviewed(f, s, UNRESOLVED, CheckFinal(FilingResult(ReviewNeeded, UNRESOLVED)), row, polls);
    LastStep(f, s);
  }

  /** One round of the wait: no callback, and a lookup that finds nothing. */
  lemma Round(f: FilingKey, s: State, poll: nat, row: FilingRow, polls: nat) returns (s1: State, s2: State)
    requires Addressable(f) && poll < polls && Reaches(f, s, Wait(polls, poll, ProviderOperationID(f)), row, polls)
    ensures s1 == Exchanged(f, s, Recv(Timeout)) && s2 == Exchanged(f, s1, Handle(true))
    ensures Reaches(f, s2, Wait(polls, poll + 1, ProviderOperationID(f)), row, polls)
  {
    TimedOut(f, s, poll, ProviderOperationID(f), row, polls);
    s1 := Exchanged(f, s, Recv(Timeout));
    Polled(f, s1, poll, ProviderOperationID(f), row, polls);
    s2 := Exchanged(f, s1, Handle(true));
  }

  /** The wait for a silent provider has come to a certain round. */
  ghost predicate WaitsInRound(f: FilingKey, s: State, poll: nat, row: FilingRow, polls: nat) {
    Reaches(f, s, Wait(polls, poll, ProviderOperationID(f)), row, polls)
  }

  lemma RoundGoesOn(f: FilingKey, s: State, poll: nat, row: FilingRow, polls: nat)
    requires Addressable(f) && WaitsInRound(f, s, poll, row, polls) && poll < polls
    ensures WaitsInRound(f, RunAll(f, s, OneRound()), poll + 1, row, polls)
  {
    var s1, s2 := Round(f, s, poll, row, polls);
    RunExchange(f, s, Recv(Timeout), [Handle(true), Checkpoint]);
    TwoActions(f, s1, Handle(true), Checkpoint);
  }

  lemma RoundsGoOn(f: FilingKey, s: State, poll: nat, row: FilingRow, polls: nat)
    returns (actions: seq<Action>, s': State)
    requires Addressable(f) && poll <= polls && WaitsInRound(f, s, poll, row, polls)
    ensures HandsOff(actions) && s' == RunAll(f, s, actions) && WaitsInRound(f, s', polls, row, polls)
  {
    forall t: State, k: nat | WaitsInRound(f, t, k, row, polls) && k < polls
      ensures WaitsInRound(f, RunAll(f, t, OneRound()), k + 1, row, polls)
    {
      RoundGoesOn(f, t, k, row, polls);
    }
    actions, s' := Repeats(f, s, OneRound(), poll, polls, (t: State, k: nat) => WaitsInRound(f, t, k, row, polls),
        a => HandsOff([a]));
    assert forall a :: a in actions ==> HandsOff([a]) && a in [a];
  }

  /** Waiting out a silent provider ends in review, however many polls are configured. */
  lemma WaitOut(f: FilingKey, s: State, poll: nat, row: FilingRow, polls: nat) returns (actions: seq<Action>)
    requires Addressable(f) && poll <= polls && (row.state == Submitting || row.state == Submitted)
    requires Reaches(f, s, Wait(polls, poll, ProviderOperationID(f)), row, polls)
    ensures Ends(f, s, actions)
  {
    var rounds, s1 := RoundsGoOn(f, s, poll, row, polls);
    WaitEnds(f, s1, row, polls);
    RunConcat(f, s, rounds, [Handle(true)]);
    actions := rounds + [Handle(true)];
  }

  /** From the resubmission's lost answer on. */
  lemma FromAcceptance(f: FilingKey, s: State, row: FilingRow, polls: nat) returns (actions: seq<Action>)
    requires Addressable(f) && (row.state == Submitting || row.state == Submitted)
    requires Reaches(f, s, AfterAcceptance(polls, row.state, ProviderOperationID(f)), row, polls)
    ensures Ends(f, s, actions)
  {
    if row.state == Submitted {
      actions := WaitOut(f, s, 0, row, polls);
    } else {
      Marked(f, s, ProviderOperationID(f), row, polls);
      actions := WaitOut(f, Exchanged(f, s, Handle(true)), 0, row.(state := Submitted), polls);
      actions := ExchangeFirst(f, s, Handle(true), actions);
    }
  }

  /** From a lookup that finds nothing on, through a POST whose answer is lost. */
  lemma LookAndLose(f: FilingKey, s: State, at: Position, row: FilingRow, polls: nat) returns (s1: State, s2: State)
    requires Addressable(f) && (at.AtFindExisting? || at.AtResolve?) && Reaches(f, s, at, row, polls)
    ensures s1 == Exchanged(f, s, Handle(true)) && s2 == Exchanged(f, s1, Lose)
    ensures Reaches(f, s2, if at.AtFindExisting? then AtResolve(at.state)
                           else AfterAcceptance(polls, at.state, ProviderOperationID(f)), row, polls)
  {
    LookedUp(f, s, at, row, polls);
    s1 := Exchanged(f, s, Handle(true));
    LostPost(f, s1, if at.AtFindExisting? then AtSubmit(at.state) else AtResubmit(at.state), row, polls);
    s2 := Exchanged(f, s1, Lose);
  }

  /** From the first lookup on, when both POSTs are lost. */
  lemma FromLookup(f: FilingKey, s: State, row: FilingRow, polls: nat) returns (actions: seq<Action>)
    requires Addressable(f) && (row.state == Submitting || row.state == Submitted)
    requires Reaches(f, s, AtFindExisting(row.state), row, polls)
    ensures Ends(f, s, actions)
  {
    var s1, s2 := LookAndLose(f, s, AtFindExisting(row.state), row, polls);
    var s3, s4 := LookAndLose(f, s2, AtResolve(row.state), row, polls);
    actions := FromAcceptance(f, s4, row, polls);
    actions := ExchangeFirst(f, s3, Lose, actions);
    actions := ExchangeFirst(f, s2, Handle(true), actions);
    actions := ExchangeFirst(f, s1, Lose, actions);
    actions := ExchangeFirst(f, s, Handle(true), actions);
  }

  lemma FromStart(f: FilingKey, s: State, row: FilingRow, polls: nat) returns (actions: seq<Action>)
    requires Addressable(f) && Reaches(f, s, AtValidate, row, polls)
    requires !Terminal(row.state) && row.state != NeedsReview
    ensures Ends(f, s, actions)
  {
    Validated(f, s, row, polls);
    var s1 := Exchanged(f, s, Handle(true));
    if row.state == Ready {
      Prepared(f, s1, row, polls);
      actions := FromLookup(f, Exchanged(f, s1, Handle(true)), Prepare(f, row), polls);
      actions := ExchangeFirst(f, s1, Handle(true), actions);
    } else {
      actions := FromLookup(f, s1, row, polls);
    }
    actions := ExchangeFirst(f, s, Handle(true), actions);
  }

  // ---------- The provider holds the operation ----------

  lemma OpenAndSettled(f: FilingKey, s: State, o: Outcome)
    requires Inv(f, s) && Settled(s, o) && s.row.Some? && !Ended(s)
    ensures o == OutcomeAccepted || o == OutcomeRejected
    ensures OutcomeSlot !in s.commands && (s.row.value.state == Submitting || s.row.value.state == Submitted)
  {
  }

  lemma OpenTakesOutcome(f: FilingKey, s: State, o: Outcome, detail: string)
    requires s.row.Some? && (s.row.value.state == Submitting || s.row.value.state == Submitted)
    requires OutcomeSlot !in s.commands && (o == OutcomeAccepted || o == OutcomeRejected)
    ensures Ended(HandleCommand(f, s, OutcomeSlot, OutcomeCommand(MapOutcome(o)), detail).0)
  {
    assert CommandKey(f, OutcomeSlot)[0] == 'f';
  }

  lemma OutcomeApplies(f: FilingKey, s: State, o: Outcome, detail: string)
    requires Inv(f, s) && Settled(s, o) && s.row.Some? && !Ended(s)
    ensures o == OutcomeAccepted || o == OutcomeRejected
    ensures Ended(HandleCommand(f, s, OutcomeSlot, OutcomeCommand(MapOutcome(o)), detail).0)
  {
    OpenAndSettled(f, s, o);
    OpenTakesOutcome(f, s, o, detail);
  }

  lemma LookupFinds(f: FilingKey, s: State, state: FilingState, o: Outcome)
    requires Addressable(f) && Asking(s) && PositionOf(f, s.wf.value) == AtFindExisting(state) && Settled(s, o)
    ensures Step(f, s, Handle(true)) == WithReply(s, Got(StatusRead(Found(ProviderOperationID(f), Completed, o))))
  {
  }

  lemma AdoptionStands(f: FilingKey, s: State, state: FilingState, o: Outcome)
    returns (detail: string, text: string)
    requires Addressable(f) && Asking(s) && PositionOf(f, s.wf.value) == AtFindExisting(state) && Settled(s, o)
    ensures var s' := Exchanged(f, s, Handle(true));
      Asking(s') && SameServices(s, s') && PositionOf(f, s'.wf.value) == RecordThenReturn(o, detail, text)
  {
    var id := ProviderOperationID(f);
    detail, text := "adopted completed submission " + id, "adopted submission " + id;
    LookupFinds(f, s, state, o);
    Exchange(f, s, Handle(true), StatusRead(Found(id, Completed, o)));
  }

  /** The lookup takes the workflow to the recording of the outcome it found. */
  lemma AdoptionIsFound(f: FilingKey, s: State, state: FilingState, o: Outcome)
    returns (s': State, detail: string, text: string)
    requires Inv(f, s) && Addressable(f) && Asking(s) && PositionOf(f, s.wf.value) == AtFindExisting(state)
    requires Settled(s, o)
    ensures s' == Exchanged(f, s, Handle(true)) && Inv(f, s') && Asking(s') && SameServices(s, s')
    ensures PositionOf(f, s'.wf.value) == RecordThenReturn(o, detail, text)
  {
    detail, text := AdoptionStands(f, s, state, o);
    ExchangeKeepsInv(f, s, Handle(true));
    s' := Exchanged(f, s, Handle(true));
  }

  lemma RecordedHere(f: FilingKey, s: State, o: Outcome, detail: string, text: string)
    requires Inv(f, s) && Asking(s) && Settled(s, o) && s.row.Some? && !Ended(s)
    requires PositionOf(f, s.wf.value) == RecordThenReturn(o, detail, text)
    ensures Ended(Step(f, s, Handle(true)))
  {
    OutcomeApplies(f, s, o, detail);
  }

  /** The workflow stands at its lookup of a completed operation and adopts it. */
  lemma Adopted(f: FilingKey, s: State, state: FilingState, o: Outcome) returns (actions: seq<Action>)
    requires Inv(f, s) && Addressable(f) && Asking(s) && PositionOf(f, s.wf.value) == AtFindExisting(state)
    requires Settled(s, o) && s.row.Some? && !Ended(s)
    ensures Ends(f, s, actions)
  {
    var s', detail, text := AdoptionIsFound(f, s, state, o);
    assert Settled(s', o) && s'.row == s.row && !Ended(s');
    RecordedHere(f, s', o, detail, text);
    LastStep(f, s');
    actions := ExchangeFirst(f, s, Handle(true), [Handle(true)]);
  }

  /** And so does one that has yet to read its filing. */
  lemma AdoptedFromStart(f: FilingKey, s: State, o: Outcome) returns (actions: seq<Action>)
    requires Inv(f, s) && Addressable(f) && Asking(s) && PositionOf(f, s.wf.value) == AtValidate
    requires Settled(s, o) && s.row.Some? && !Ended(s)
    ensures Ends(f, s, actions)
  {
    Exchange(f, s, Handle(true), FilingRead(s.row.value));
    ExchangeKeepsInv(f, s, Handle(true));
    actions := Adopted(f, Exchanged(f, s, Handle(true)), s.row.value.state, o);
    actions := ExchangeFirst(f, s, Handle(true), actions);
  }

  // ---------- A workflow that reaches nobody fails ----------

  /** A request other than a POST gets no answer. */
  lemma NoAnswer(f: FilingKey, s: State) returns (a: Action, message: string)
    requires Asking(s)
    requires var at := PositionOf(f, s.wf.value);
      !at.AtSubmit? && !at.AtResubmit? && !at.Returned? && !at.Failed?
    ensures a == Lose || a == Recv(Broken)
    ensures var s' := Step(f, s, a);
      && s'.wf == s.wf && SameServices(s, s') && s'.live.Some? && s'.live.value.tries == s.live.value.tries
      && (s'.live.value.reply == Some(Failing(message)) || s'.live.value.reply == Some(Got(StepFailed(message))))
  {
    a := if PositionOf(f, s.wf.value).AtRecv? then Recv(Broken) else Lose;
    message := if a.Lose? then "transport failure" else "recv failed";
  }

  /** The workflow has failed and its services are as they were. */
  predicate FailedFrom(f: FilingKey, s: State, s': State) {
    Asking(s') && PositionOf(f, s'.wf.value).Failed? && SameServices(s, s')
  }

  lemma CheckpointedFailure(f: FilingKey, s: State, message: string)
    requires s.wf.Some? && s.wf.value.status == Running && s.live.Some? && s.live.value.reply.Some?
    requires ResultOf(s.live.value.reply.value) == StepFailed(message) && !CanRetry(f, s)
    requires !PositionOf(f, s.wf.value).AtSubmit? && !PositionOf(f, s.wf.value).Returned?
    ensures FailedFrom(f, s, Step(f, s, Checkpoint))
  {
    var w, r := s.wf.value, StepFailed(message);
    assert (w.history + [r])[..|w.history|] == w.history;
  }

  lemma Retried(f: FilingKey, s: State)
    requires CanRetry(f, s) && s.wf.value.status == Running
    ensures var s' := Step(f, s, Retry);
      && Asking(s') && s'.wf == s.wf && SameServices(s, s') && s'.live.value.tries == s.live.value.tries + 1
  {
  }

  /** Its retries used up, a step without an answer ends the workflow. */
  lemma {:induction false} StepFails(f: FilingKey, s: State) returns (actions: seq<Action>)
    requires Asking(s)
    requires var at := PositionOf(f, s.wf.value);
      !at.AtSubmit? && !at.AtResubmit? && !at.Returned? && !at.Failed?
    ensures HandsOff(actions) && FailedFrom(f, s, RunAll(f, s, actions))
    decreases STEP_RETRIES - s.live.value.tries
  {
    var a, message := NoAnswer(f, s);
    var s1 := Step(f, s, a);
    if CanRetry(f, s1) {
      Retried(f, s1);
      var rest := StepFails(f, Step(f, s1, Retry));
      actions := [a, Retry] + rest;
      TwoActions(f, s, a, Retry);
      RunConcat(f, s, [a, Retry], rest);
    } else {
      actions := [a, Checkpoint];
      CheckpointedFailure(f, s1, message);
      TwoActions(f, s, a, Checkpoint);
    }
  }

  /** The answer to a POST is lost: the workflow goes on to a step that can fail. */
  lemma PostUnanswered(f: FilingKey, s: State)
    requires Asking(s) && (PositionOf(f, s.wf.value).AtSubmit? || PositionOf(f, s.wf.value).AtResubmit?)
    ensures var s' := Exchanged(f, s, Lose);
      && Asking(s') && SameServices(s, s')
      && var at := PositionOf(f, s'.wf.value);
        !at.AtSubmit? && !at.AtResubmit? && !at.Returned? && !at.Failed?
  {
    Exchange(f, s, Lose, SubmitDone(SubmitOutcome(VerdictAmbiguous, "transport failure")));
  }

  lemma WorkflowFails(f: FilingKey, s: State) returns (actions: seq<Action>)
    requires Asking(s) && !PositionOf(f, s.wf.value).Returned?
    ensures HandsOff(actions) && FailedFrom(f, s, RunAll(f, s, actions))
  {
    var at := PositionOf(f, s.wf.value);
    if at.Failed? {
      actions := [];
    } else if at.AtSubmit? || at.AtResubmit? {
      PostUnanswered(f, s);
      var rest := StepFails(f, Exchanged(f, s, Lose));
      RunExchange(f, s, Lose, rest);
      actions := [Lose, Checkpoint] + rest;
    } else {
      actions := StepFails(f, s);
    }
  }

  /** A workflow that has returned has settled its filing. */
  lemma ReturnedMeansEnded(f: FilingKey, s: State)
    requires Inv(f, s) && Addressable(f) && s.row.Some? && !Ended(s)
    ensures s.wf.Some? ==> !PositionOf(f, s.wf.value).Returned? && !s.wf.value.status.Succeeded?
  {
    if s.wf.Some? {
      assert WorkflowOk(f, s, s.wf.value);
    }
  }

  lemma Reopened(f: FilingKey, s: State)
    requires s.wf.Some? && s.wf.value.status == Running
    ensures var s' := RunAll(f, s, [Crash, Begin]); Asking(s') && s'.wf == s.wf && SameServices(s, s')
  {
    TwoActions(f, s, Crash, Begin);
  }

  lemma FailureSettles(f: FilingKey, s: State)
    requires Asking(s) && PositionOf(f, s.wf.value).Failed?
    ensures var s' := Step(f, s, Settle);
      s'.wf.Some? && s'.wf.value.status == Errored && s'.live.None? && SameServices(s, s')
  {
  }

  /** Whatever a running workflow was doing, it ends in an error if it reaches nobody. */
  lemma ErrorsOut(f: FilingKey, s: State) returns (actions: seq<Action>)
    requires Inv(f, s) && Addressable(f) && s.row.Some? && !Ended(s)
    requires s.wf.Some? && s.wf.value.status == Running
    ensures HandsOff(actions)
    ensures var s' := RunAll(f, s, actions);
      s'.wf.Some? && s'.wf.value.status == Errored && s'.live.None? && SameServices(s, s')
  {
    ReturnedMeansEnded(f, s);
    Reopened(f, s);
    var s1 := RunAll(f, s, [Crash, Begin]);
    var fail := WorkflowFails(f, s1);
    var s2 := RunAll(f, s1, fail);
    FailureSettles(f, s2);
    RunConcat(f, s, [Crash, Begin], fail + [Settle]);
    RunConcat(f, s1, fail, [Settle]);
    OneAction(f, s2, Settle);
    actions := [Crash, Begin] + (fail + [Settle]);
  }

  /** A filing without a workflow, its services as they were. */
  predicate ClearedFrom(s: State, s': State) {
    s'.wf.None? && s'.live.None? && SameServices(s, s')
  }

  lemma Deleted(f: FilingKey, s: State, polls: nat)
    requires s.wf.Some? && s.wf.value.status == Errored
    ensures AllUsual(f, s, [Delete], polls) && ClearedFrom(s, RunAll(f, s, [Delete]))
  {
    OneAction(f, s, Delete);
    assert [Delete][1..] == [];
  }

  lemma RunningIsCleared(f: FilingKey, s: State, polls: nat) returns (actions: seq<Action>)
    requires Inv(f, s) && Addressable(f) && s.row.Some? && !Ended(s)
    requires s.wf.Some? && s.wf.value.status == Running
    ensures AllUsual(f, s, actions, polls) && ClearedFrom(s, RunAll(f, s, actions))
  {
    var fail := ErrorsOut(f, s);
    HandsOffIsUsual(f, s, fail, polls);
    Deleted(f, RunAll(f, s, fail), polls);
    UsualConcat(f, s, fail, [Delete], polls);
    RunConcat(f, s, fail, [Delete]);
    actions := fail + [Delete];
  }

  lemma RunsAgain(f: FilingKey, s: State, polls: nat)
    requires Inv(f, s) && s.wf.Some? && s.wf.value.status == Cancelled
    ensures var s' := RunAll(f, s, [Resume]);
      && Inv(f, s') && SameServices(s, s') && s'.wf.Some? && s'.wf.value.status == Running
    ensures AllUsual(f, s, [Resume], polls)
  {
    OneAction(f, s, Resume);
    StepKeepsInv(f, s, Resume);
    assert [Resume][1..] == [];
  }

  /** Any workflow of an open filing can be brought to its deletion, which it must fail first. */
  lemma Cleared(f: FilingKey, s: State, polls: nat) returns (actions: seq<Action>)
    requires Inv(f, s) && Addressable(f) && s.row.Some? && !Ended(s)
    ensures AllUsual(f, s, actions, polls) && ClearedFrom(s, RunAll(f, s, actions))
  {
    if s.wf.None? {
      actions := [];
    } else {
      ReturnedMeansEnded(f, s);
      match s.wf.value.status
      case Running => actions := RunningIsCleared(f, s, polls);
      case Errored =>
        Deleted(f, s, polls);
        actions := [Delete];
      case Cancelled =>
        RunsAgain(f, s, polls);
        var rest := RunningIsCleared(f, RunAll(f, s, [Resume]), polls);
        UsualConcat(f, s, [Resume], rest, polls);
        RunConcat(f, s, [Resume], rest);
        actions := [Resume] + rest;
    }
  }

  // ---------- A new workflow ----------

  lemma FreshIsUsual(f: FilingKey, s: State, row: FilingRow, polls: nat)
    requires s.row == Some(row)
    ensures AllUsual(f, s, [Start(row.scenario, polls), Begin], polls)
  {
    var start := Start(row.scenario, polls);
    assert [start, Begin][1..] == [Begin] && [Begin][1..] == [];
    assert AllUsual(f, Step(f, s, start), [Begin], polls);
  }

  /** The provider does not hold the operation: a new workflow ends even if no POST is answered. */
  lemma StartedAnew(f: FilingKey, s: State, row: FilingRow, polls: nat) returns (actions: seq<Action>)
    requires Inv(f, s) && Addressable(f) && s.row == Some(row) && !Ended(s)
    requires s.cell.entry.None? && s.wf.None? && s.live.None?
    ensures AllUsual(f, s, actions, polls) && Ended(RunAll(f, s, actions))
  {
    var start := [Start(row.scenario, polls), Begin];
    FreshWorkflow(f, s, row, row.scenario, polls);
    TwoActions(f, s, Start(row.scenario, polls), Begin);
    FreshIsUsual(f, s, row, polls);
    var rest := FromStart(f, RunAll(f, s, start), row, polls);
    HandsOffIsUsual(f, RunAll(f, s, start), rest, polls);
    UsualConcat(f, s, start, rest, polls);
    RunConcat(f, s, start, rest);
    actions := start + rest;
  }

  lemma NewWorkflowAsks(f: FilingKey, s: State, scenario: Scenario, polls: nat)
    requires Inv(f, s) && s.wf.None? && s.live.None?
    ensures var s' := RunAll(f, s, [Start(scenario, polls), Begin]);
      Inv(f, s') && Asking(s') && PositionOf(f, s'.wf.value) == AtValidate && SameServices(s, s')
  {
    StepKeepsInv(f, s, Start(scenario, polls));
    StepKeepsInv(f, Step(f, s, Start(scenario, polls)), Begin);
    TwoActions(f, s, Start(scenario, polls), Begin);
  }

  /** The provider has completed the operation: a new workflow adopts it. */
  lemma StartedToAdopt(f: FilingKey, s: State, o: Outcome, polls: nat) returns (actions: seq<Action>)
    requires Inv(f, s) && Addressable(f) && s.row.Some? && !Ended(s)
    requires Settled(s, o) && s.wf.None? && s.live.None?
    ensures AllUsual(f, s, actions, polls) && Ended(RunAll(f, s, actions))
  {
    var start := [Start(s.row.value.scenario, polls), Begin];
    NewWorkflowAsks(f, s, s.row.value.scenario, polls);
    FreshIsUsual(f, s, s.row.value, polls);
    var rest := AdoptedFromStart(f, RunAll(f, s, start), o);
    HandsOffIsUsual(f, RunAll(f, s, start), rest, polls);
    UsualConcat(f, s, start, rest, polls);
    RunConcat(f, s, start, rest);
    actions := start + rest;
  }

  lemma RestartAndFire(f: FilingKey, s: State)
    requires s.cell.entry.Some? && s.cell.entry.value.status == Processing
    ensures var s' := Step(f, Step(f, s, RestartProvider), Action.Fire(true));
      Settled(s', OutcomeAccepted) && s'.row == s.row && s'.wf == s.wf && s'.live == s.live
  {
    var s1 := Step(f, s, RestartProvider);
    assert s1 == ResumeWorker(s) && s1.worker == Some(Waiting);
    assert Step(f, s1, Action.Fire(true)) == FireWorker(s1, true);
  }

  /** A processing operation completes once the provider is restarted. */
  lemma CompletedByRestart(f: FilingKey, s: State)
    requires Inv(f, s) && s.cell.entry.Some? && s.cell.entry.value.status == Processing
    ensures var s' := RunAll(f, s, [RestartProvider, Action.Fire(true)]);
      && Inv(f, s') && Settled(s', OutcomeAccepted)
      && s'.row == s.row && s'.wf == s.wf && s'.live == s.live
  {
    var s1 := Step(f, s, RestartProvider);
    StepKeepsInv(f, s, RestartProvider);
    StepKeepsInv(f, s1, Action.Fire(true));
    RestartAndFire(f, s);
    TwoActions(f, s, RestartProvider, Action.Fire(true));
  }

  /** Without a workflow, a new one ends the filing, whatever the provider holds. */
  lemma Restarted(f: FilingKey, s: State, polls: nat) returns (actions: seq<Action>)
    requires Inv(f, s) && Addressable(f) && s.row.Some? && !Ended(s) && s.wf.None? && s.live.None?
    ensures AllUsual(f, s, actions, polls) && Ended(RunAll(f, s, actions))
  {
    if s.cell.entry.None? {
      actions := StartedAnew(f, s, s.row.value, polls);
    } else if s.cell.entry.value.status == Completed {
      actions := StartedToAdopt(f, s, s.cell.entry.value.outcome, polls);
    } else {
      var first := [RestartProvider, Action.Fire(true)];
      CompletedByRestart(f, s);
      var rest := StartedToAdopt(f, RunAll(f, s, first), OutcomeAccepted, polls);
      HandsOffIsUsual(f, s, first, polls);
      UsualConcat(f, s, first, rest, polls);
      RunConcat(f, s, first, rest);
      actions := first + rest;
    }
  }

  lemma ClearedIsOk(f: FilingKey, s: State, actions: seq<Action>)
    requires Inv(f, s) && s.row.Some? && !Ended(s) && ClearedFrom(s, RunAll(f, s, actions))
    ensures var s' := RunAll(f, s, actions); Inv(f, s') && s'.row == s.row && !Ended(s')
  {
    RunKeepsInv(f, s, actions);
  }

  /** From any state that satisfies the invariant, some continuation ends in review or with an
      outcome, even if the provider never answers a POST: whatever workflow there is may fail,
      be deleted and started anew; a running or a cancelled one is never deleted. */
  lemma Recover(f: FilingKey, s: State, polls: nat) returns (actions: seq<Action>)
    requires Inv(f, s) && Addressable(f) && s.row.Some?
    ensures AllUsual(f, s, actions, polls) && Ended(RunAll(f, s, actions))
  {
    if Ended(s) {
      actions := [];
    } else {
      var first := Cleared(f, s, polls);
      ClearedIsOk(f, s, first);
      var rest := Restarted(f, RunAll(f, s, first), polls);
      UsualConcat(f, s, first, rest, polls);
      RunConcat(f, s, first, rest);
      actions := first + rest;
    }
  }

  /** Recoverability: every run that has seeded the filing can be continued to a settled one. */
  lemma EveryFilingCanEnd(f: FilingKey, actions: seq<Action>, polls: nat)
    requires Addressable(f) && Reached(f, actions).row.Some?
    ensures exists more: seq<Action> ::
              AllUsual(f, Reached(f, actions), more, polls) && Ended(Reached(f, actions + more))
  {
    ReachedIsOk(f, actions);
    var more := Recover(f, Reached(f, actions), polls);
    RunConcat(f, NEW_FILING, actions, more);
    assert Ended(Reached(f, actions + more));
  }
}
