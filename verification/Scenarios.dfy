/** The provider's scenarios, from seeding to the end: what each of them comes to when nobody
    interferes. And what a workflow comes to that finds its operation completed. */
module Scenarios {
  import opened Domain
  import opened CommandStore
  import opened ProviderLedger
  import opened Filing
  import opened Protocol
  import opened ProtocolInvariant
  import opened Guarantees
  import opened Runs
  import opened Calm

  // ---------- Steps that are no exchanges ----------

  lemma ActionKeepsWorking(f: FilingKey, s: State, a: Action, at: Position, x: Scene, x': Scene)
    requires Works(f, s, at, x) && x'.polls == x.polls && x'.scenario == x.scenario
    requires Step(f, s, a).wf == s.wf && Step(f, s, a).live == s.live && Shows(Step(f, s, a), x')
    ensures Works(f, Step(f, s, a), at, x')
  {
    StepKeepsInv(f, s, a);
  }

  lemma ActionFirst(f: FilingKey, s: State, a: Action, rest: seq<Action>, x: Scene, result: FilingResult)
    returns (actions: seq<Action>)
    requires CalmAction(a) && EndsAs(f, Step(f, s, a), rest, x, result)
    ensures EndsAs(f, s, actions, x, result)
  {
    OneAction(f, s, a);
    RunConcat(f, s, [a], rest);
    actions := [a] + rest;
  }

  // ---------- After a restart of the provider ----------

  predicate OwesCallback(s: State) {
    Settled(s, OutcomeAccepted) && !s.cell.entry.value.callbackFinished
  }

  lemma RestartWaits(f: FilingKey, s: State)
    requires OwesCallback(s)
    ensures Step(f, s, RestartProvider) == s.(worker := Some(Waiting))
  {
  }

  lemma FiringCalls(f: FilingKey, s: State)
    requires OwesCallback(s) && s.worker == Some(Waiting)
    ensures Step(f, s, Action.Fire(true)) == s.(worker := Some(Calling))
  {
    assert Complete(s.cell.entry.value) == s.cell.entry.value;
  }

  lemma RestartedWorkerCalls(f: FilingKey, s: State)
    requires OwesCallback(s)
    ensures RunAll(f, s, [RestartProvider, Action.Fire(true)]) == s.(worker := Some(Calling))
  {
    TwoActions(f, s, RestartProvider, Action.Fire(true));
    RestartWaits(f, s);
    FiringCalls(f, s.(worker := Some(Waiting)));
  }

  lemma CallingBackAdds(f: FilingKey, s: State, second: bool)
    requires OwesCallback(s)
    ensures var s' := Step(f, s, CallBack(second)); var id := ProviderOperationID(f);
      && s'.cell == s.cell && s'.worker == s.worker
      && (s.wf.Some? && s.cell.entry.value.scenario != ScenarioNoCallbackDone ==>
            Callback(id + (if second then "-cb2" else "-cb1"), id, OutcomeAccepted) in s'.inbox)
  {
  }

  lemma FinishingFinishes(f: FilingKey, s: State)
    requires OwesCallback(s) && s.worker == Some(Calling)
    ensures var s' := Step(f, s, FinishCallback(true));
      s'.worker.None? && s'.cell == s.cell.(entry := Some(s.cell.entry.value.(callbackFinished := true)))
  {
  }

  /** A completed operation whose callback is owed gets it after a restart of the provider, and
      keeps owing it until then. */
  lemma OwedCallbackIsDelivered(f: FilingKey, s: State, second: bool)
    requires OwesCallback(s)
    ensures var s2 := RunAll(f, s, [RestartProvider, Action.Fire(true)]);
      var s3 := Step(f, s2, CallBack(second)); var s4 := Step(f, s3, FinishCallback(true));
      var id := ProviderOperationID(f);
      && s2.worker == Some(Calling) && s2.cell == s.cell
      && (s.wf.Some? && s.cell.entry.value.scenario != ScenarioNoCallbackDone ==>
            Callback(id + (if second then "-cb2" else "-cb1"), id, OutcomeAccepted) in s3.inbox)
      && s4.worker.None? && s4.cell == s.cell.(entry := Some(s.cell.entry.value.(callbackFinished := true)))
  {
    RestartedWorkerCalls(f, s);
    var s2 := s.(worker := Some(Calling));
    CallingBackAdds(f, s2, second);
    FinishingFinishes(f, Step(f, s2, CallBack(second)));
  }

  // ---------- The provider completes the operation ----------

  predicate InProgress(f: FilingKey, cell: Cell) {
    Holds(f, cell, Processing, NoOutcome) && !cell.entry.value.callbackFinished
  }

  function WhenCompleted(x: Scene): Scene
    requires x.cell.entry.Some?
  {
    x.(cell := x.cell.(entry := Some(x.cell.entry.value.(status := Completed, outcome := OutcomeAccepted))),
       worker := Some(Calling))
  }

  lemma OperationCompletes(f: FilingKey, s: State, at: Position, x: Scene)
    requires Works(f, s, at, x) && InProgress(f, x.cell) && x.worker == Some(Waiting)
    ensures Works(f, Step(f, s, Action.Fire(true)), at, WhenCompleted(x))
  {
    ActionKeepsWorking(f, s, Action.Fire(true), at, x, WhenCompleted(x));
  }

  function FirstCallback(f: FilingKey): Callback {
    Callback(ProviderOperationID(f) + "-cb1", ProviderOperationID(f), OutcomeAccepted)
  }

  lemma CallbackArrives(f: FilingKey, s: State, at: Position, x: Scene)
    requires Works(f, s, at, x) && Holds(f, x.cell, Completed, OutcomeAccepted)
    requires x.cell.entry.value.scenario != ScenarioNoCallbackDone
    ensures var s' := Step(f, s, CallBack(false)); Works(f, s', at, x) && FirstCallback(f) in s'.inbox
  {
    ActionKeepsWorking(f, s, CallBack(false), at, x, x);
  }

  function WhenFinished(x: Scene): Scene
    requires x.cell.entry.Some?
  {
    x.(cell := x.cell.(entry := Some(x.cell.entry.value.(callbackFinished := true))), worker := None)
  }

  lemma CallbackFinishes(f: FilingKey, s: State, at: Position, x: Scene)
    requires Works(f, s, at, x) && x.worker == Some(Calling) && x.cell.entry.Some?
    ensures Works(f, Step(f, s, FinishCallback(true)), at, WhenFinished(x))
  {
    ActionKeepsWorking(f, s, FinishCallback(true), at, x, WhenFinished(x));
  }

  lemma InboxStays(f: FilingKey, s: State)
    ensures Step(f, s, FinishCallback(true)).inbox == s.inbox
  {
  }

  /** What an accepted filing's workflow returns, told by a callback or else by the first poll. */
  function AcceptedResult(f: FilingKey, scenario: Scenario): FilingResult {
    FilingResult(FromProvider(OutcomeAccepted),
                 if scenario == ScenarioNoCallbackDone then "via status poll (callback missing)"
                 else "via callback " + ProviderOperationID(f) + "-cb1")
  }

  /** The workflow waits, and its callback is there. */
  lemma TakesCallback(f: FilingKey, s: State, id: string, x: Scene) returns (actions: seq<Action>)
    requires Works(f, s, AtRecv(0, id), x) && Open(x.row) && FirstCallback(f) in s.inbox
    requires x.scenario != ScenarioNoCallbackDone
    ensures EndsAs(f, s, actions, x.(row := x.row.(state := Accepted)), AcceptedResult(f, x.scenario))
  {
    var cb := FirstCallback(f);
    var next := CallbackRecording(cb).next;
    assert next.result == AcceptedResult(f, x.scenario);
    CallbackIsRecorded(f, s, 0, id, x, cb);
    actions := FromRecording(f, Exchanged(f, s, Recv(Message(cb))), OutcomeAccepted, "via callback " + cb.id, next, x);
    actions := ExchangeThen(f, s, Recv(Message(cb)), actions, x.(row := x.row.(state := Accepted)), next.result);
  }

  /** The callback comes and is finished with. */
  lemma FromCallback(f: FilingKey, s: State, id: string, x: Scene) returns (actions: seq<Action>)
    requires Works(f, s, AtRecv(0, id), x) && Open(x.row) && x.worker == Some(Calling)
    requires Holds(f, x.cell, Completed, OutcomeAccepted) && x.scenario != ScenarioNoCallbackDone
    requires x.cell.entry.value.scenario == x.scenario
    ensures EndsAs(f, s, actions, WhenFinished(x).(row := x.row.(state := Accepted)), AcceptedResult(f, x.scenario))
  {
    var to := WhenFinished(x).(row := x.row.(state := Accepted));
    CallbackArrives(f, s, AtRecv(0, id), x);
    var s1 := Step(f, s, CallBack(false));
    CallbackFinishes(f, s1, AtRecv(0, id), x);
    InboxStays(f, s1);
    actions := TakesCallback(f, Step(f, s1, FinishCallback(true)), id, WhenFinished(x));
    actions := ActionFirst(f, s1, FinishCallback(true), actions, to, AcceptedResult(f, x.scenario));
    actions := ActionFirst(f, s, CallBack(false), actions, to, AcceptedResult(f, x.scenario));
  }

  /** The callback is left out, and the poll finds the outcome. */
  lemma FromPoll(f: FilingKey, s: State, id: string, x: Scene) returns (actions: seq<Action>)
    requires Works(f, s, AtRecv(0, id), x) && Open(x.row) && x.worker == Some(Calling)
    requires Holds(f, x.cell, Completed, OutcomeAccepted) && x.scenario == ScenarioNoCallbackDone
    ensures EndsAs(f, s, actions, WhenFinished(x).(row := x.row.(state := Accepted)), AcceptedResult(f, x.scenario))
  {
    var x' := WhenFinished(x);
    CallbackFinishes(f, s, AtRecv(0, id), x);
    actions := WaitConcludes(f, Step(f, s, FinishCallback(true)), 0, id, x', OutcomeAccepted);
    actions := ActionFirst(f, s, FinishCallback(true), actions, x'.(row := x.row.(state := Accepted)),
        AcceptedResult(f, x.scenario));
  }

  // ---------- The submission ----------

  function FreshEntry(f: FilingKey, scenario: Scenario): Entry {
    Entry(ProviderOperationID(f), f.filingId, scenario, "/callbacks", Processing, NoOutcome, 1, false)
  }

  /** The provider takes the POST: this operation is new to it, and no fault is left for it. */
  predicate Takes(cell: Cell, scenario: Scenario) {
    && cell.entry.None?
    && scenario != ScenarioReject && scenario != ScenarioRateLimitExhausted
    && (scenario == ScenarioRateLimit ==> cell.rateLimit == 2)
    && (scenario == ScenarioTransientServerError ==> cell.serverError == 2)
    && (scenario == ScenarioTimeoutLost ==> cell.timeout == 1)
  }

  /** The counters of a cell after one more POST of a scenario. */
  function Recounted(cell: Cell, scenario: Scenario): Cell {
    Cell(cell.entry, cell.rateLimit + (if scenario == ScenarioRateLimit then 1 else 0),
         cell.serverError + (if scenario == ScenarioTransientServerError then 1 else 0),
         cell.timeout + (if scenario == ScenarioTimeoutLost then 1 else 0))
  }

  lemma TakenPost(f: FilingKey, x: Scene)
    requires Takes(x.cell, x.scenario)
    ensures Classify(Some(Post(x.cell, Submission(f, x)).response)) == Answered(SubmitOutcome(VerdictAccepted, ""))
    ensures AfterPost(f, x) == x.(cell := Recounted(x.cell, x.scenario).(entry := Some(FreshEntry(f, x.scenario))),
                               worker := Some(Waiting))
  {
  }

  /** How an accepted filing ends. */
  function AcceptedScene(f: FilingKey, x: Scene): Scene {
    x.(row := x.row.(state := Accepted), marked := true, worker := None,
       cell := Recounted(x.cell, x.scenario).(entry := Some(FreshEntry(f, x.scenario).(
         status := Completed, outcome := OutcomeAccepted, callbackFinished := true))))
  }

  /** From the mark on, while the provider works on the operation. */
  lemma FromMark(f: FilingKey, s: State, x: Scene) returns (actions: seq<Action>)
    requires Works(f, s, AtMarkSubmitted(ProviderOperationID(f)), x) && Open(x.row) && x.polls > 0
    requires x.cell.entry == Some(FreshEntry(f, x.scenario)) && x.worker == Some(Waiting)
    ensures EndsAs(f, s, actions, WhenFinished(WhenCompleted(x)).(row := x.row.(state := Accepted), marked := true),
                   AcceptedResult(f, x.scenario))
  {
    var id := ProviderOperationID(f);
    var x1 := x.(row := x.row.(state := Submitted), marked := true);
    var to := WhenFinished(WhenCompleted(x)).(row := x.row.(state := Accepted), marked := true);
    MarkedOn(f, s, id, x);
    var s1 := Exchanged(f, s, Handle(true));
    OperationCompletes(f, s1, AtRecv(0, id), x1);
    var s2 := Step(f, s1, Action.Fire(true));
    if x.scenario == ScenarioNoCallbackDone {
      actions := FromPoll(f, s2, id, WhenCompleted(x1));
    } else {
      actions := FromCallback(f, s2, id, WhenCompleted(x1));
    }
    assert WhenFinished(WhenCompleted(x1)).(row := x1.row.(state := Accepted)) == to;
    actions := ActionFirst(f, s1, Action.Fire(true), actions, to, AcceptedResult(f, x.scenario));
    actions := ExchangeThen(f, s, Handle(true), actions, to, AcceptedResult(f, x.scenario));
  }

  /** From a POST that the provider takes. */
  lemma FromTakenPost(f: FilingKey, s: State, at: Position, x: Scene) returns (actions: seq<Action>)
    requires Works(f, s, at, x) && (at == AtSubmit(Submitting) || at == AtResubmit(Submitting))
    requires Takes(x.cell, x.scenario) && Open(x.row) && x.polls > 0
    ensures EndsAs(f, s, actions, AcceptedScene(f, x), AcceptedResult(f, x.scenario))
  {
    TakenPost(f, x);
    PostIsAnswered(f, s, at, x, SubmitOutcome(VerdictAccepted, ""));
    actions := FromMark(f, Exchanged(f, s, Handle(true)), AfterPost(f, x));
    assert WhenFinished(WhenCompleted(AfterPost(f, x))).(row := x.row.(state := Accepted), marked := true) ==
        AcceptedScene(f, x);
    actions := ExchangeThen(f, s, Handle(true), actions, AcceptedScene(f, x), AcceptedResult(f, x.scenario));
  }

  // ---------- Retries ----------

  lemma RetryFirst(f: FilingKey, s: State, at: Position, x: Scene, rest: seq<Action>, to: Scene, result: FilingResult)
    returns (actions: seq<Action>)
    requires EndsAs(f, RunAll(f, s, [Handle(true), Retry]), rest, to, result)
    ensures EndsAs(f, s, actions, to, result)
  {
    RunConcat(f, s, [Handle(true), Retry], rest);
    actions := [Handle(true), Retry] + rest;
  }

  /** How many more POSTs of a scenario will be turned away for a moment. */
  function FaultsLeft(cell: Cell, scenario: Scenario): int {
    match scenario
    case ScenarioRateLimit => 2 - cell.rateLimit
    case ScenarioTransientServerError => 2 - cell.serverError
    case _ => 0
  }

  lemma FaultyPost(f: FilingKey, x: Scene)
    requires x.cell.entry.None? && FaultsLeft(x.cell, x.scenario) > 0
    ensures Classify(Some(Post(x.cell, Submission(f, x)).response)).Retryable?
    ensures AfterPost(f, x) == x.(cell := Recounted(x.cell, x.scenario))
    ensures FaultsLeft(AfterPost(f, x).cell, x.scenario) == FaultsLeft(x.cell, x.scenario) - 1
  {
  }

  predicate Passing(scenario: Scenario) {
    scenario == ScenarioRateLimit || scenario == ScenarioTransientServerError
  }

  /** The scene once the faults have passed. */
  function FaultsOver(x: Scene): Scene {
    x.(cell := x.cell.(rateLimit := if x.scenario == ScenarioRateLimit then 2 else x.cell.rateLimit,
                       serverError := if x.scenario == ScenarioTransientServerError then 2 else x.cell.serverError))
  }

  /** A submission that is turned away twice, and taken the third time. */
  lemma {:induction false} FromFaults(f: FilingKey, s: State, x: Scene) returns (actions: seq<Action>)
    requires Works(f, s, AtSubmit(Submitting), x) && Open(x.row) && x.polls > 0 && Passing(x.scenario)
    requires x.cell.entry.None? && FaultsLeft(x.cell, x.scenario) >= 0
    requires s.live.value.tries + FaultsLeft(x.cell, x.scenario) <= 5
    ensures EndsAs(f, s, actions, AcceptedScene(f, FaultsOver(x)), AcceptedResult(f, x.scenario))
    decreases FaultsLeft(x.cell, x.scenario)
  {
    if FaultsLeft(x.cell, x.scenario) == 0 {
      assert FaultsOver(x) == x;
      actions := FromTakenPost(f, s, AtSubmit(Submitting), x);
    } else {
      FaultyPost(f, x);
      PostIsRetried(f, s, AtSubmit(Submitting), x);
      assert FaultsOver(AfterPost(f, x)) == FaultsOver(x);
      actions := FromFaults(f, RunAll(f, s, [Handle(true), Retry]), AfterPost(f, x));
      actions := RetryFirst(f, s, AtSubmit(Submitting), x, actions, AcceptedScene(f, FaultsOver(x)),
          AcceptedResult(f, x.scenario));
    }
  }

  /** How many requests are handled along a run. */
  function Requests(actions: seq<Action>): nat
    decreases |actions|
  {
    if actions == [] then 0 else (if actions[0].Handle? then 1 else 0) + Requests(actions[1..])
  }

  lemma OneMoreRetry(f: FilingKey, s: State, rest: seq<Action>, s': State) returns (actions: seq<Action>)
    requires AllCalm(rest) && RunAll(f, RunAll(f, s, [Handle(true), Retry]), rest) == s'
    ensures AllCalm(actions) && RunAll(f, s, actions) == s' && Requests(actions) == Requests(rest) + 1
  {
    RunConcat(f, s, [Handle(true), Retry], rest);
    actions := [Handle(true), Retry] + rest;
    assert actions[1..] == [Retry] + rest && actions[1..][1..] == rest;
  }

  lemma HopelessPost(f: FilingKey, x: Scene)
    requires x.cell.entry.None? && x.scenario == ScenarioRateLimitExhausted
    ensures Classify(Some(Post(x.cell, Submission(f, x)).response)) == Retryable("authority rate limited (429)")
    ensures AfterPost(f, x) == x
  {
  }

  lemma HopelessRetry(f: FilingKey, s: State, x: Scene) returns (s': State)
    requires Works(f, s, AtSubmit(Submitting), x) && s.live.value.tries < 5
    requires x.cell.entry.None? && x.scenario == ScenarioRateLimitExhausted
    ensures s' == RunAll(f, s, [Handle(true), Retry]) && Works(f, s', AtSubmit(Submitting), x)
    ensures s'.live.value.tries == s.live.value.tries + 1
  {
    HopelessPost(f, x);
    PostIsRetried(f, s, AtSubmit(Submitting), x);
    s' := RunAll(f, s, [Handle(true), Retry]);
  }

  /** Where such a submission ends up. */
  predicate TurnedAway(at: Position) {
    at == GivingUp(AtSubmit(Submitting), "authority rate limited (429)")
  }

  lemma HopelessEnd(f: FilingKey, s: State, x: Scene, next: Position) returns (s': State)
    requires Works(f, s, AtSubmit(Submitting), x) && s.live.value.tries == 5
    requires x.cell.entry.None? && x.scenario == ScenarioRateLimitExhausted
    requires TurnedAway(next)
    ensures s' == RunAll(f, s, [Handle(true), Checkpoint]) && Works(f, s', next, x)
  {
    HopelessPost(f, x);
    PostGivesUp(f, s, AtSubmit(Submitting), x, "authority rate limited (429)");
    TwoActions(f, s, Handle(true), Checkpoint);
    s' := Exchanged(f, s, Handle(true));
  }

  /** A submission that is always turned away takes five retries, six attempts in all, and then
      sends the filing to review without any effect at the provider. */
  lemma {:induction false} AttemptsFail(f: FilingKey, s: State, x: Scene, retries: nat, next: Position)
    returns (actions: seq<Action>, s': State)
    requires Works(f, s, AtSubmit(Submitting), x) && s.live.value.tries + retries == 5
    requires x.cell.entry.None? && x.scenario == ScenarioRateLimitExhausted && TurnedAway(next)
    ensures AllCalm(actions) && RunAll(f, s, actions) == s' && Requests(actions) == retries + 1
    ensures Works(f, s', next, x)
    decreases retries
  {
    if retries == 0 {
      s' := HopelessEnd(f, s, x, next);
      actions := [Handle(true), Checkpoint];
      assert actions[1..] == [Checkpoint] && actions[1..][1..] == [];
    } else {
      var s1 := HopelessRetry(f, s, x);
      actions, s' := AttemptsFail(f, s1, x, retries - 1, next);
      actions := OneMoreRetry(f, s, actions, s');
    }
  }

  function GaveUpResult(): FilingResult {
    FilingResult(ReviewNeeded, "authority rate limited (429)")
  }

  lemma FromHopeless(f: FilingKey, s: State, x: Scene) returns (actions: seq<Action>)
    requires Works(f, s, AtSubmit(Submitting), x) && s.live.value.tries == 0 && Open(x.row)
    requires x.cell.entry.None? && x.scenario == ScenarioRateLimitExhausted
    ensures EndsAs(f, s, actions, x.(row := x.row.(state := NeedsReview)), GaveUpResult())
  {
    var next := GivingUp(AtSubmit(Submitting), "authority rate limited (429)");
    var first, s1 := AttemptsFail(f, s, x, 5, next);
    var rest := FromReview(f, s1, "submit retries exhausted: " + "authority rate limited (429)",
        Return(GaveUpResult()), x);
    RunConcat(f, s, first, rest);
    actions := first + rest;
  }

  // ---------- Rejection and a lost POST ----------

  function RejectedEntry(f: FilingKey): Entry {
    Entry(ProviderOperationID(f), f.filingId, ScenarioReject, "/callbacks", Completed, OutcomeRejected, 1, true)
  }

  function RejectedResult(): FilingResult {
    FilingResult(FromProvider(OutcomeRejected), "permanent validation failure")
  }

  lemma RejectedPost(f: FilingKey, x: Scene)
    requires x.cell.entry.None? && x.scenario == ScenarioReject
    ensures Classify(Some(Post(x.cell, Submission(f, x)).response)) ==
              Answered(SubmitOutcome(VerdictRejected, "permanent validation failure"))
    ensures AfterPost(f, x) == x.(cell := x.cell.(entry := Some(RejectedEntry(f))))
  {
  }

  lemma FromRejection(f: FilingKey, s: State, x: Scene) returns (actions: seq<Action>)
    requires Works(f, s, AtSubmit(Submitting), x) && Open(x.row)
    requires x.cell.entry.None? && x.scenario == ScenarioReject
    ensures EndsAs(f, s, actions, AfterPost(f, x).(row := x.row.(state := Rejected)), RejectedResult())
    ensures AfterPost(f, x) == x.(cell := x.cell.(entry := Some(RejectedEntry(f))))
  {
    var text := "permanent validation failure";
    RejectedPost(f, x);
    PostIsAnswered(f, s, AtSubmit(Submitting), x, SubmitOutcome(VerdictRejected, text));
    actions := FromRecording(f, Exchanged(f, s, Handle(true)), OutcomeRejected, text, Return(RejectedResult()),
        AfterPost(f, x));
    actions := ExchangeThen(f, s, Handle(true), actions, AfterPost(f, x).(row := x.row.(state := Rejected)),
        RejectedResult());
  }

  lemma LostForGood(f: FilingKey, x: Scene)
    requires x.cell.entry.None? && x.scenario == ScenarioTimeoutLost && x.cell.timeout == 0
    ensures Classify(Some(Post(x.cell, Submission(f, x)).response)) ==
              Answered(SubmitOutcome(VerdictAmbiguous, "gateway timeout"))
    ensures AfterPost(f, x) == x.(cell := Recounted(x.cell, x.scenario))
  {
  }

  /** A POST whose effect and answer are lost: the lookup finds nothing, and the second one is taken. */
  lemma FromLostPost(f: FilingKey, s: State, x: Scene) returns (actions: seq<Action>)
    requires Works(f, s, AtSubmit(Submitting), x) && Open(x.row) && x.polls > 0
    requires x.cell.entry.None? && x.scenario == ScenarioTimeoutLost && x.cell.timeout == 0
    ensures EndsAs(f, s, actions, AcceptedScene(f, x.(cell := Recounted(x.cell, x.scenario))),
                   AcceptedResult(f, x.scenario))
  {
    LostForGood(f, x);
    PostIsAnswered(f, s, AtSubmit(Submitting), x, SubmitOutcome(VerdictAmbiguous, "gateway timeout"));
    var x1 := x.(cell := Recounted(x.cell, x.scenario));
    var s1 := Exchanged(f, s, Handle(true));
    UncompletedIsFollowed(f, s1, AtResolve(Submitting), x1);
    var s2 := Exchanged(f, s1, Handle(true));
    actions := FromTakenPost(f, s2, AtResubmit(Submitting), x1);
    actions := ExchangeThen(f, s1, Handle(true), actions, AcceptedScene(f, x1), AcceptedResult(f, x.scenario));
    actions := ExchangeThen(f, s, Handle(true), actions, AcceptedScene(f, x1), AcceptedResult(f, x.scenario));
  }

  // ---------- From seeding to the end ----------

  function EndState(scenario: Scenario): FilingState {
    match scenario
    case ScenarioReject => Rejected
    case ScenarioRateLimitExhausted => NeedsReview
    case _ => Accepted
  }

  function EndResult(f: FilingKey, scenario: Scenario): FilingResult {
    match scenario
    case ScenarioReject => RejectedResult()
    case ScenarioRateLimitExhausted => GaveUpResult()
    case _ => AcceptedResult(f, scenario)
  }

  /** What the provider holds in the end: one attempt on record, and as many counted faults as the
      scenario has, the taken POST included. */
  function EndCell(f: FilingKey, scenario: Scenario): Cell {
    match scenario
    case ScenarioReject => Cell(Some(RejectedEntry(f)), 0, 0, 0)
    case ScenarioRateLimitExhausted => Cell(None, 0, 0, 0)
    case _ =>
      Cell(Some(Entry(ProviderOperationID(f), f.filingId, scenario, "/callbacks", Completed, OutcomeAccepted, 1, true)),
           if scenario == ScenarioRateLimit then 3 else 0,
           if scenario == ScenarioTransientServerError then 3 else 0,
           if scenario == ScenarioTimeoutLost then 2 else 0)
  }

  function EndScene(f: FilingKey, scenario: Scenario, polls: nat): Scene {
    Scene(FilingRow(scenario, EndState(scenario), Some(ProviderOperationID(f))), polls, scenario,
          EndCell(f, scenario), None, EndState(scenario) == Accepted)
  }

  const NEW_CELL := Cell(None, 0, 0, 0)

  lemma FromSubmission(f: FilingKey, s: State, scenario: Scenario, polls: nat, x: Scene)
    returns (actions: seq<Action>)
    requires x == Scene(FilingRow(scenario, Submitting, Some(ProviderOperationID(f))), polls, scenario, NEW_CELL,
                        None, false)
    requires Works(f, s, AtSubmit(Submitting), x) && s.live.value.tries == 0 && polls > 0
    ensures EndsAs(f, s, actions, EndScene(f, scenario, polls), EndResult(f, scenario))
  {
    match scenario
    case ScenarioReject => actions := FromRejection(f, s, x);
    case ScenarioRateLimitExhausted => actions := FromHopeless(f, s, x);
    case ScenarioRateLimit => actions := FromFaults(f, s, x);
    case ScenarioTransientServerError => actions := FromFaults(f, s, x);
    case ScenarioTimeoutLost => actions := FromLostPost(f, s, x);
    case _ => actions := FromTakenPost(f, s, AtSubmit(Submitting), x);
  }

  /** The filing as it is seeded, and with its intent. */
  function SeededScene(scenario: Scenario, polls: nat): Scene {
    Scene(FilingRow(scenario, Ready, None), polls, scenario, NEW_CELL, None, false)
  }

  function IntendedScene(f: FilingKey, scenario: Scenario, polls: nat): Scene {
    Scene(FilingRow(scenario, Submitting, Some(ProviderOperationID(f))), polls, scenario, NEW_CELL, None, false)
  }

  lemma StartedWaits(f: FilingKey, s: State, x: Scene)
    requires s.wf.None? && s.live.None? && Shows(s, x)
    ensures Waits(f, Step(f, Step(f, s, Start(x.scenario, x.polls)), Begin), AtValidate, x)
  {
    var s1 := Step(f, s, Start(x.scenario, x.polls));
    assert s1.wf == Some(Workflow(x.scenario, x.polls, Running, [])) && s1.live.None? && Shows(s1, x);
    assert Step(f, s1, Begin) == s1.(live := Some(Live(0, None)));
  }

  lemma SeededWaits(f: FilingKey, s: State, scenario: Scenario, polls: nat)
    requires s == NEW_FILING
    ensures Waits(f, Step(f, Step(f, Step(f, s, Seed(scenario)), Start(scenario, polls)), Begin), AtValidate,
                  SeededScene(scenario, polls))
  {
    assert Step(f, s, Seed(scenario)) == s.(row := Some(FilingRow(scenario, Ready, None)));
    StartedWaits(f, Step(f, s, Seed(scenario)), SeededScene(scenario, polls));
  }

  lemma SeededWorks(f: FilingKey, s: State, scenario: Scenario, polls: nat) returns (s': State)
    requires s == NEW_FILING && Addressable(f)
    ensures s' == RunAll(f, s, [Seed(scenario), Start(scenario, polls), Begin])
    ensures Works(f, s', AtValidate, SeededScene(scenario, polls))
  {
    var start := [Seed(scenario), Start(scenario, polls), Begin];
    SeededWaits(f, s, scenario, polls);
    ReachedIsOk(f, start);
    ThreeActions(f, s, Seed(scenario), Start(scenario, polls), Begin);
    s' := RunAll(f, s, start);
  }

  /** From the validation to the first submission. */
  lemma ComesToSubmission(f: FilingKey, s: State, scenario: Scenario, polls: nat)
    returns (s1: State, s2: State, s3: State)
    requires Works(f, s, AtValidate, SeededScene(scenario, polls))
    ensures s1 == Exchanged(f, s, Handle(true)) && s2 == Exchanged(f, s1, Handle(true))
    ensures s3 == Exchanged(f, s2, Handle(true)) && s3.live == Some(Live(0, None))
    ensures Works(f, s3, AtSubmit(Submitting), IntendedScene(f, scenario, polls))
  {
    var seeded, intended := SeededScene(scenario, polls), IntendedScene(f, scenario, polls);
    ValidationStands(f, s, seeded);
    WorksOn(f, s, Handle(true), AtPrepare, seeded);
    s1 := Exchanged(f, s, Handle(true));
    IntentStands(f, s1, seeded);
    WorksOn(f, s1, Handle(true), AtFindExisting(Submitting), intended);
    s2 := Exchanged(f, s1, Handle(true));
    UncompletedIsFollowed(f, s2, AtFindExisting(Submitting), intended);
    s3 := Exchanged(f, s2, Handle(true));
  }

  /** Every scenario ends as it should when nobody interferes: the filing's state, the workflow's
      result, and the provider's entry, attempts and fault counts are those of the scenario. */
  lemma EveryScenarioEnds(f: FilingKey, scenario: Scenario, polls: nat) returns (actions: seq<Action>)
    requires Addressable(f) && polls > 0
    ensures AllCalm(actions)
    ensures var s := Reached(f, [Seed(scenario), Start(scenario, polls), Begin] + actions);
      && s.row == Some(FilingRow(scenario, EndState(scenario), Some(ProviderOperationID(f))))
      && s.wf.Some? && s.wf.value.status == Succeeded(EndResult(f, scenario))
      && s.cell == EndCell(f, scenario) && s.worker.None?
      && (SubmittedSlot in s.commands <==> EndState(scenario) == Accepted)
  {
    var start := [Seed(scenario), Start(scenario, polls), Begin];
    var to, result := EndScene(f, scenario, polls), EndResult(f, scenario);
    var s := SeededWorks(f, NEW_FILING, scenario, polls);
    var s1, s2, s3 := ComesToSubmission(f, s, scenario, polls);
    actions := FromSubmission(f, s3, scenario, polls, IntendedScene(f, scenario, polls));
    actions := ExchangeThen(f, s2, Handle(true), actions, to, result);
    actions := ExchangeThen(f, s1, Handle(true), actions, to, result);
    actions := ExchangeThen(f, s, Handle(true), actions, to, result);
    RunConcat(f, NEW_FILING, start, actions);
  }

  // ---------- A lost answer ----------

  lemma LosingSends(f: FilingKey, s: State, x: Scene) returns (sub: SubmitOutcome)
    requires Waits(f, s, AtSubmit(Submitting), x)
    ensures sub.verdict == VerdictAmbiguous
    ensures Step(f, s, Lose) == WithReply(AddMsg(s, PostSent(x.scenario)), Got(SubmitDone(sub)))
  {
    sub := Classify(None).outcome;
  }

  lemma LosingAdvances(f: FilingKey, polls: nat, sub: SubmitOutcome)
    requires sub.verdict == VerdictAmbiguous
    ensures Advance(f, polls, AtSubmit(Submitting), SubmitDone(sub)) == AtResolve(Submitting)
  {
  }

  lemma LosingKeepsQueue(f: FilingKey, s: State)
    ensures Step(f, s, Checkpoint).postsOut == s.postsOut
  {
  }

  /** The request is under way, and the workflow does not know whether it will be handled. */
  lemma LosingStands(f: FilingKey, s: State, x: Scene)
    requires Works(f, s, AtSubmit(Submitting), x)
    ensures Works(f, Exchanged(f, s, Lose), AtResolve(Submitting), x)
    ensures UnderWay(Exchanged(f, s, Lose), PostSent(x.scenario))
  {
    var sub := LosingSends(f, s, x);
    LosingAdvances(f, x.polls, sub);
    LosingKeepsQueue(f, Step(f, s, Lose));
    Exchange(f, s, Lose, SubmitDone(sub));
    WorksOn(f, s, Lose, AtResolve(Submitting), x);
  }

  /** The request itself arrives all the same. */
  lemma ArrivesLate(f: FilingKey, s: State, at: Position, x: Scene)
    requires Works(f, s, at, x) && UnderWay(s, PostSent(x.scenario))
    ensures Works(f, Step(f, s, Deliver(PostSent(x.scenario), true)), at, AfterPost(f, x))
  {
    ActionKeepsWorking(f, s, Deliver(PostSent(x.scenario), true), at, x, AfterPost(f, x));
  }

  lemma LostAnswerStands(f: FilingKey, s: State, x: Scene) returns (s': State)
    requires Works(f, s, AtSubmit(Submitting), x) && Takes(x.cell, x.scenario)
    ensures s' == RunAll(f, s, [Lose, Checkpoint, Deliver(PostSent(x.scenario), true)])
    ensures Works(f, s', AtResolve(Submitting), AfterPost(f, x))
  {
    LosingStands(f, s, x);
    ArrivesLate(f, Exchanged(f, s, Lose), AtResolve(Submitting), x);
    ThreeActions(f, s, Lose, Checkpoint, Deliver(PostSent(x.scenario), true));
    s' := Step(f, Exchanged(f, s, Lose), Deliver(PostSent(x.scenario), true));
  }

  /** A POST that the provider takes and whose answer is lost: the workflow looks its operation up,
      finds it, and goes on without another POST. */
  lemma LostAnswerIsResolved(f: FilingKey, s: State, x: Scene) returns (actions: seq<Action>)
    requires Works(f, s, AtSubmit(Submitting), x) && Takes(x.cell, x.scenario) && Open(x.row) && x.polls > 0
    ensures var lost := RunAll(f, s, [Lose, Checkpoint, Deliver(PostSent(x.scenario), true)]);
      EndsAs(f, lost, actions, AcceptedScene(f, x), AcceptedResult(f, x.scenario))
  {
    var s1 := LostAnswerStands(f, s, x);
    TakenPost(f, x);
    UncompletedIsFollowed(f, s1, AtResolve(Submitting), AfterPost(f, x));
    actions := FromMark(f, Exchanged(f, s1, Handle(true)), AfterPost(f, x));
    assert WhenFinished(WhenCompleted(AfterPost(f, x))).(row := x.row.(state := Accepted), marked := true)
        == AcceptedScene(f, x);
    actions := ExchangeThen(f, s1, Handle(true), actions, AcceptedScene(f, x), AcceptedResult(f, x.scenario));
  }

  lemma ThreeExchanges(f: FilingKey, s: State, s1: State, s2: State, rest: seq<Action>)
    requires s1 == Exchanged(f, s, Handle(true)) && s2 == Exchanged(f, s1, Handle(true))
    ensures RunAll(f, s, [Handle(true), Checkpoint] + ([Handle(true), Checkpoint]
              + ([Handle(true), Checkpoint] + rest))) == RunAll(f, Exchanged(f, s2, Handle(true)), rest)
  {
    var once := [Handle(true), Checkpoint];
    RunExchange(f, s2, Handle(true), rest);
    RunExchange(f, s1, Handle(true), once + rest);
    RunExchange(f, s, Handle(true), once + (once + rest));
  }

  /** What an accepted filing comes to. */
  predicate EndsAccepted(f: FilingKey, s: State, scenario: Scenario) {
    && s.row == Some(FilingRow(scenario, Accepted, Some(ProviderOperationID(f))))
    && s.wf.Some? && s.wf.value.status == Succeeded(AcceptedResult(f, scenario))
    && s.cell == EndCell(f, scenario) && s.worker.None?
  }

  lemma LostAnswerReaches(f: FilingKey, s: State, scenario: Scenario, polls: nat) returns (actions: seq<Action>)
    requires Works(f, s, AtSubmit(Submitting), IntendedScene(f, scenario, polls))
    requires polls > 0 && Takes(NEW_CELL, scenario)
    ensures AllCalm(actions)
    ensures EndsAccepted(f, RunAll(f, s, [Lose, Checkpoint, Deliver(PostSent(scenario), true)] + actions), scenario)
  {
    actions := LostAnswerIsResolved(f, s, IntendedScene(f, scenario, polls));
    RunConcat(f, s, [Lose, Checkpoint, Deliver(PostSent(scenario), true)], actions);
  }

  /** The whole run, from seeding: one attempt on record, and no other POST. */
  lemma LostAnswerEnds(f: FilingKey, scenario: Scenario, polls: nat) returns (actions: seq<Action>)
    requires Addressable(f) && polls > 0 && Takes(NEW_CELL, scenario)
    ensures AllCalm(actions)
    ensures var once := [Handle(true), Checkpoint]; var lost := [Lose, Checkpoint, Deliver(PostSent(scenario), true)];
      EndsAccepted(f, Reached(f, [Seed(scenario), Start(scenario, polls), Begin]
          + (once + (once + (once + (lost + actions))))), scenario)
  {
    var once, lost := [Handle(true), Checkpoint], [Lose, Checkpoint, Deliver(PostSent(scenario), true)];
    var s := SeededWorks(f, NEW_FILING, scenario, polls);
    var s1, s2, s3 := ComesToSubmission(f, s, scenario, polls);
    actions := LostAnswerReaches(f, s3, scenario, polls);
    ThreeExchanges(f, s, s1, s2, lost + actions);
    RunConcat(f, NEW_FILING, [Seed(scenario), Start(scenario, polls), Begin],
        once + (once + (once + (lost + actions))));
  }

  // ---------- A workflow that finds its operation completed ----------

  /** An undisturbed run to this outcome, at Accountable and in the workflow's own result. */
  predicate Concludes(f: FilingKey, s: State, actions: seq<Action>, o: Outcome) {
    AllCalm(actions) &&
      var s' := RunAll(f, s, actions);
      && s'.row.Some? && s'.row.value.state == MapOutcome(o)
      && s'.wf.Some? && s'.wf.value.status.Succeeded? && s'.wf.value.status.result.outcome == FromProvider(o)
  }

  lemma EndingConcludes(f: FilingKey, s: State, actions: seq<Action>, x: Scene, result: FilingResult, o: Outcome)
    requires EndsAs(f, s, actions, x, result) && x.row.state == MapOutcome(o) && result.outcome == FromProvider(o)
    ensures Concludes(f, s, actions, o)
  {
  }

  lemma ExchangeConcludes(f: FilingKey, s: State, a: Action, rest: seq<Action>, o: Outcome)
    returns (actions: seq<Action>)
    requires CalmAction(a) && Concludes(f, Exchanged(f, s, a), rest, o)
    ensures Concludes(f, s, actions, o)
    ensures RunAll(f, s, actions) == RunAll(f, Exchanged(f, s, a), rest)
  {
    RunExchange(f, s, a, rest);
    actions := [a, Checkpoint] + rest;
  }

  /** The positions at which a workflow still expects an outcome. */
  predicate Expects(at: Position, polls: nat) {
    || at.AtValidate? || at.AtPrepare? || LooksUp(at) || at.AtMarkSubmitted?
    || (at.AtRecv? && at.poll < polls) || at.AtSubmit? || at.AtResubmit?
  }

  lemma HeldPost(f: FilingKey, s: State, x: Scene, o: Outcome)
    requires Inv(f, s) && Shows(s, x) && Holds(f, x.cell, Completed, o) && o != NoOutcome
    ensures var result := Classify(Some(Post(x.cell, Submission(f, x)).response));
      && result.Answered?
      && (result.outcome.verdict == VerdictRejected ==> o == OutcomeRejected)
      && (result.outcome.verdict == VerdictAccepted ==> o == OutcomeAccepted)
    ensures var x' := AfterPost(f, x);
      Holds(f, x'.cell, Completed, o) && x' == x.(cell := x'.cell)
  {
  }

  lemma OnwardReaches(f: FilingKey, s: State, state: FilingState, x: Scene, o: Outcome) returns (actions: seq<Action>)
    requires Works(f, s, Onward(f, x, state), x) && Open(x.row) && Holds(f, x.cell, Completed, o) && x.polls > 0
    requires o == OutcomeAccepted || o == OutcomeRejected
    ensures Concludes(f, s, actions, o)
    ensures RunAll(f, s, actions).cell == x.cell
  {
    var marked;
    actions, marked := OnwardConcludes(f, s, state, x, o);
    EndingConcludes(f, s, actions, x.(row := x.row.(state := MapOutcome(o)), marked := marked),
        FilingResult(FromProvider(o), POLLED), o);
  }

  lemma LookupReaches(f: FilingKey, s: State, at: Position, x: Scene, o: Outcome) returns (actions: seq<Action>)
    requires Works(f, s, at, x) && LooksUp(at) && Open(x.row) && Holds(f, x.cell, Completed, o)
    requires o == OutcomeAccepted || o == OutcomeRejected
    ensures Concludes(f, s, actions, o)
    ensures RunAll(f, s, actions).cell == x.cell
  {
    actions := ToldOutcomeIsReturned(f, s, at, x, o);
    EndingConcludes(f, s, actions, x.(row := x.row.(state := MapOutcome(o))), Recording(f, at, o).next.result, o);
  }

  /** A repeated POST is answered by the entry, or taken for ambiguous and looked up. */
  lemma PostReaches(f: FilingKey, s: State, at: Position, x: Scene, o: Outcome) returns (actions: seq<Action>)
    requires Works(f, s, at, x) && (at.AtSubmit? || at.AtResubmit?) && x.polls > 0
    requires Open(x.row) && Holds(f, x.cell, Completed, o) && (o == OutcomeAccepted || o == OutcomeRejected)
    ensures Concludes(f, s, actions, o)
  {
    HeldPost(f, s, x, o);
    var sub, x' := Classify(Some(Post(x.cell, Submission(f, x)).response)).outcome, AfterPost(f, x);
    PostIsAnswered(f, s, at, x, sub);
    var s1 := Exchanged(f, s, Handle(true));
    if sub.verdict == VerdictRejected {
      var next := Return(FilingResult(FromProvider(OutcomeRejected), sub.detail));
      actions := FromRecording(f, s1, o, sub.detail, next, x');
      EndingConcludes(f, s1, actions, x'.(row := x'.row.(state := MapOutcome(o))), next.result, o);
    } else if sub.verdict == VerdictAmbiguous && at.AtSubmit? {
      actions := LookupReaches(f, s1, AtResolve(at.state), x', o);
    } else {
      actions := OnwardReaches(f, s1, at.state, x', o);
    }
    actions := ExchangeConcludes(f, s, Handle(true), actions, o);
  }

  lemma WaitReaches(f: FilingKey, s: State, poll: nat, id: string, x: Scene, o: Outcome)
    returns (actions: seq<Action>)
    requires Works(f, s, AtRecv(poll, id), x) && Open(x.row) && Holds(f, x.cell, Completed, o)
    requires o == OutcomeAccepted || o == OutcomeRejected
    ensures Concludes(f, s, actions, o)
    ensures RunAll(f, s, actions).cell == x.cell
  {
    actions := WaitConcludes(f, s, poll, id, x, o);
    EndingConcludes(f, s, actions, x.(row := x.row.(state := MapOutcome(o))), FilingResult(FromProvider(o), POLLED), o);
  }

  lemma EarlyReaches(f: FilingKey, s: State, at: Position, x: Scene, o: Outcome) returns (actions: seq<Action>)
    requires Works(f, s, at, x) && (at == AtValidate || at == AtPrepare)
    requires Open(x.row) && Holds(f, x.cell, Completed, o) && (o == OutcomeAccepted || o == OutcomeRejected)
    ensures Concludes(f, s, actions, o)
    ensures RunAll(f, s, actions).cell == x.cell
  {
    var next, x' := AtFindExisting(if at == AtPrepare then Submitting else x.row.state), x;
    if at == AtPrepare {
      x' := Intending(f, x);
      IntentStands(f, s, x);
    } else {
      ValidationStands(f, s, x);
    }
    WorksOn(f, s, Handle(true), next, x');
    actions := LookupReaches(f, Exchanged(f, s, Handle(true)), next, x', o);
    actions := ExchangeConcludes(f, s, Handle(true), actions, o);
  }

  /** Whatever an open filing's workflow was doing when it comes back, undisturbed it ends with the
      outcome that the provider holds; it sends another POST only if it was about to. */
  lemma CompletedIsConcluded(f: FilingKey, s: State, at: Position, x: Scene, o: Outcome)
    returns (actions: seq<Action>)
    requires Works(f, s, at, x) && Expects(at, x.polls) && x.polls > 0
    requires Open(x.row) && Holds(f, x.cell, Completed, o) && (o == OutcomeAccepted || o == OutcomeRejected)
    ensures Concludes(f, s, actions, o)
    ensures !at.AtSubmit? && !at.AtResubmit? ==> RunAll(f, s, actions).cell == x.cell
  {
    if at.AtValidate? || at.AtPrepare? {
      actions := EarlyReaches(f, s, at, x, o);
    } else if LooksUp(at) {
      actions := LookupReaches(f, s, at, x, o);
    } else if at.AtSubmit? || at.AtResubmit? {
      actions := PostReaches(f, s, at, x, o);
    } else if at.AtRecv? {
      actions := WaitReaches(f, s, at.poll, at.submissionId, x, o);
    } else {
      MarkedOn(f, s, at.submissionId, x);
      actions := WaitReaches(f, Exchanged(f, s, Handle(true)), 0, at.submissionId,
          x.(row := x.row.(state := Submitted), marked := true), o);
      actions := ExchangeConcludes(f, s, Handle(true), actions, o);
    }
  }

  /** In every reachable state: a workflow that still expects an outcome, of an addressable filing
      whose operation is completed, records and returns exactly that outcome if left undisturbed. */
  lemma NoOutcomeIsDropped(f: FilingKey, actions: seq<Action>, o: Outcome)
    requires var s := Reached(f, actions);
      && Addressable(f) && Asking(s) && s.row.Some? && Open(s.row.value) && Settled(s, o)
      && s.wf.value.polls > 0 && Expects(PositionOf(f, s.wf.value), s.wf.value.polls)
    ensures exists more: seq<Action> :: Concludes(f, Reached(f, actions), more, o)
  {
    ReachedIsOk(f, actions);
    var s := Reached(f, actions);
    SettledIsHeld(f, s, o);
    var more := CompletedIsConcluded(f, s, PositionOf(f, s.wf.value), SceneOf(s), o);
  }
}
