/** What holds of one filing in every reachable state of the composed system. */
module Guarantees {
  import opened Domain
  import opened CommandStore
  import opened ProviderLedger
  import opened Filing
  import opened Protocol
  import opened ProtocolInvariant

  /** The state after any sequence of steps, beginning with a filing nobody has heard of. */
  function Reached(f: FilingKey, actions: seq<Action>): State {
    RunAll(f, NEW_FILING, actions)
  }

  lemma ReachedIsOk(f: FilingKey, actions: seq<Action>)
    ensures Inv(f, Reached(f, actions))
  {
    RunKeepsInv(f, NEW_FILING, actions);
  }

  /** Intent before effect: whatever was crashed, restored, deleted, started twice, delayed
      or duplicated, a provider operation exists only for a filing that stores its ID. */
  lemma IntentBeforeEffect(f: FilingKey, actions: seq<Action>)
    ensures var s := Reached(f, actions);
      s.cell.entry.Some? ==>
        && s.row.Some? && s.row.value.state != Ready
        && s.row.value.providerOperation == Some(ProviderOperationID(f))
        && s.cell.entry.value.id == ProviderOperationID(f)
        && s.cell.entry.value.filingId == f.filingId
  {
    ReachedIsOk(f, actions);
  }

  predicate Agrees(s: State) {
    s.row.Some? ==>
      && (s.row.value.state == Accepted ==> Settled(s, OutcomeAccepted))
      && (s.row.value.state == Rejected ==> Settled(s, OutcomeRejected))
  }

  /** Outcome agreement: an accepted or rejected filing has a completed provider operation
      with that outcome, whichever path recorded it. */
  lemma OutcomesAgree(f: FilingKey, actions: seq<Action>)
    requires Addressable(f)
    ensures Agrees(Reached(f, actions))
  {
    ReachedIsOk(f, actions);
    var s := Reached(f, actions);
    if OutcomeSlot in s.commands { assert CommandOk(f, OutcomeSlot, s.commands[OutcomeSlot]); }
  }

  /** Success means settled: a history that ended in success, the current one or any
      backup, leaves Accountable in a settled state, and a provider outcome in its result
      is exactly Accountable's state. Only the result that reports a filing as final already
      depends on what the lookup found. */
  lemma SuccessMeansSettled(f: FilingKey, actions: seq<Action>, w: Workflow)
    requires w in Reached(f, actions).past && w.status.Succeeded?
    requires Addressable(f) || w.status.result.outcome != AlreadyFinal
    ensures var s := Reached(f, actions); var outcome := w.status.result.outcome;
      && s.row.Some?
      && (Terminal(s.row.value.state) || s.row.value.state == NeedsReview)
      && (outcome == AlreadyFinal ==> Terminal(s.row.value.state))
      && (outcome == FromProvider(OutcomeAccepted) ==> s.row.value.state == Accepted)
      && (outcome == FromProvider(OutcomeRejected) ==> s.row.value.state == Rejected)
  {
    ReachedIsOk(f, actions);
    var s := Reached(f, actions);
    assert WorkflowOk(f, s, w);
    if OutcomeSlot in s.commands { assert CommandOk(f, OutcomeSlot, s.commands[OutcomeSlot]); }
  }

  lemma CurrentSuccessIsSettled(f: FilingKey, actions: seq<Action>)
    ensures var s := Reached(f, actions);
      s.wf.Some? && s.wf.value.status.Succeeded?
      && (Addressable(f) || s.wf.value.status.result.outcome != AlreadyFinal) ==>
        && s.row.Some?
        && Rank(s.row.value.state) >= Rank(NeedsReview)
        && (s.wf.value.status.result.outcome == FromProvider(OutcomeAccepted) ==> s.row.value.state == Accepted)
        && (s.wf.value.status.result.outcome == FromProvider(OutcomeRejected) ==> s.row.value.state == Rejected)
  {
    var s := Reached(f, actions);
    ReachedIsOk(f, actions);
    if s.wf.Some? && s.wf.value.status.Succeeded?
        && (Addressable(f) || s.wf.value.status.result.outcome != AlreadyFinal) {
      SuccessMeansSettled(f, actions, s.wf.value);
    }
  }

  /** Late resolution is never blocked: the outcome command exists exactly when the filing
      is terminal, so once the provider completed, a filing under review, or any other that
      is past its intent, is resolved by one outcome command, whatever its detail. */
  lemma LateResolutionIsOpen(f: FilingKey, actions: seq<Action>, o: Outcome, detail: string)
    requires o == OutcomeAccepted || o == OutcomeRejected
    ensures var s := Reached(f, actions);
      && (OutcomeSlot in s.commands <==> s.row.Some? && Terminal(s.row.value.state))
      && (Settled(s, o) ==> s.row.Some?)
      && (Settled(s, o) && !Terminal(s.row.value.state) ==>
            var (s', reply) := HandleCommand(f, s, OutcomeSlot, OutcomeCommand(MapOutcome(o)), detail);
            AppliedNow(reply) && s'.row.Some? && s'.row.value.state == MapOutcome(o))
  {
    ReachedIsOk(f, actions);
  }

  /** And by only one: once a filing is terminal no command of any kind is applied to it. */
  lemma ResolvedOnce(f: FilingKey, actions: seq<Action>, slot: CommandSlot, t: CommandType, detail: string)
    requires var s := Reached(f, actions); s.row.Some? && Terminal(s.row.value.state)
    ensures var s := Reached(f, actions); var (s', reply) := HandleCommand(f, s, slot, t, detail);
      && !AppliedNow(reply) && s'.row == s.row
  {
    ReachedIsOk(f, actions);
    var s := Reached(f, actions);
    if slot in s.commands { assert CommandOk(f, slot, s.commands[slot]); }
  }

  /** Every command on record for a filing is the one that its kind stands for, under its own key:
      only the intent names the operation, and only reviews and outcomes give a reason. */
  lemma StoredCommandsAreCanonical(f: FilingKey, actions: seq<Action>, slot: CommandSlot)
    requires slot in Reached(f, actions).commands
    ensures var request := Reached(f, actions).commands[slot].request; var id := WorkflowID(f);
      && request.filing == f
      && (slot == IntentSlot ==> request == CommandRequest(id + "-submission-intent", PrepareFilingSubmission, f,
                                                          ProviderOperationID(f), ""))
      && (slot == SubmittedSlot ==> request == CommandRequest(id + "-submitted", MarkFilingSubmitted, f, "", ""))
      && (slot == ReviewSlot ==> request.key == id + "-needs-review" && request.providerOperation == ""
                                 && request.commandType == MarkFilingNeedsReview)
      && (slot == OutcomeSlot ==> request.key == id + "-outcome" && request.providerOperation == ""
                                  && request.commandType in {MarkFilingAccepted, MarkFilingRejected})
  {
    ReachedIsOk(f, actions);
    var s := Reached(f, actions);
    CommandKeysAreCanonical(f);
    assert CommandOk(f, slot, s.commands[slot]);
  }

  // ---------- Exactly once ----------

  /** The business of filing one return, without crashes, retries or histories. */
  datatype Business = Business(
    intent: bool, effect: Option<Scenario>, settled: Option<Outcome>,
    marked: bool, reviewed: bool, recorded: Option<Outcome>)

  function RecordedOutcome(t: CommandType): Outcome {
    if t == MarkFilingAccepted then OutcomeAccepted else OutcomeRejected
  }

  function BusinessOf(s: State): Business {
    Business(
      IntentSlot in s.commands,
      if s.cell.entry.Some? then Some(s.cell.entry.value.scenario) else None,
      if s.cell.entry.Some? && s.cell.entry.value.status == Completed then Some(s.cell.entry.value.outcome) else None,
      SubmittedSlot in s.commands,
      ReviewSlot in s.commands,
      if OutcomeSlot in s.commands then Some(RecordedOutcome(s.commands[OutcomeSlot].request.commandType)) else None)
  }

  datatype Effect = DeclareIntent | File(scenario: Scenario) | Accept | Mark | Review | RecordOutcome(outcome: Outcome)

  /** Each effect may happen only while it has not happened, and only after what it needs; an
      outcome is the provider's whenever the filing's lookups can be trusted. */
  predicate Enabled(f: FilingKey, b: Business, e: Effect) {
    match e
    case DeclareIntent => !b.intent
    case File(_) => b.intent && b.effect.None? && b.settled.None?
    case Accept => b.effect.Some? && b.effect != Some(ScenarioReject) && b.settled.None?
    case Mark => b.intent && !b.marked && !b.reviewed && b.recorded.None?
    case Review => b.intent && !b.reviewed && b.recorded.None?
    case RecordOutcome(o) => b.intent && (Addressable(f) ==> b.settled == Some(o)) && b.recorded.None?
  }

  function Happen(b: Business, e: Effect): Business {
    match e
    case DeclareIntent => b.(intent := true)
    case File(scenario) =>
      b.(effect := Some(scenario), settled := if scenario == ScenarioReject then Some(OutcomeRejected) else None)
    case Accept => b.(settled := Some(OutcomeAccepted))
    case Mark => b.(marked := true)
    case Review => b.(reviewed := true)
    case RecordOutcome(o) => b.(recorded := Some(o))
  }

  ghost predicate Permitted(f: FilingKey, b: Business, b': Business) {
    b' == b || exists e :: Enabled(f, b, e) && b' == Happen(b, e)
  }

  function EffectOf(t: CommandType): Effect {
    match t
    case PrepareFilingSubmission => DeclareIntent
    case MarkFilingSubmitted => Mark
    case MarkFilingNeedsReview => Review
    case _ => RecordOutcome(RecordedOutcome(t))
  }

  lemma CommandIsPermitted(f: FilingKey, s: State, slot: CommandSlot, t: CommandType, detail: string)
    requires ServicesOk(f, s) && CommandMsgOk(f, s, slot, t)
    ensures var s' := HandleCommand(f, s, slot, t, detail).0;
      Permitted(f, BusinessOf(s), BusinessOf(s'))
  {
    if slot in s.commands { assert CommandOk(f, slot, s.commands[slot]); }
    CommandMovesRow(f, s, slot, t, detail);
    var s' := HandleCommand(f, s, slot, t, detail).0;
    if slot !in s.commands && slot in s'.commands {
      var e := EffectOf(t);
      assert Enabled(f, BusinessOf(s), e);
      assert BusinessOf(s') == Happen(BusinessOf(s), e);
    } else {
      assert BusinessOf(s') == BusinessOf(s);
    }
  }

  lemma PostIsPermitted(f: FilingKey, s: State, scenario: Scenario, saved: bool)
    requires ServicesOk(f, s) && Intended(s)
    ensures var s' := HandlePost(f, s, scenario, saved).0;
      Permitted(f, BusinessOf(s), BusinessOf(s'))
  {
    var s' := HandlePost(f, s, scenario, saved).0;
    if s.cell.entry.None? && s'.cell.entry.Some? {
      var e := File(scenario);
      assert Enabled(f, BusinessOf(s), e);
      assert BusinessOf(s') == Happen(BusinessOf(s), e);
    }
  }

  /** The parts of the state that the business is about. */
  predicate SameServices(s: State, s': State) {
    s'.row == s.row && s'.commands == s.commands && s'.cell == s.cell
  }

  predicate Undisturbed(s: State, s': State) {
    SameServices(s, s') && s'.worker == s.worker
  }

  predicate TouchesServices(a: Action) {
    a.Seed? || a.Handle? || a.Deliver? || a.Fire? || a.FinishCallback?
  }

  lemma LosingIsInvisible(f: FilingKey, s: State)
    requires Asking(s)
    ensures Undisturbed(s, LoseCurrent(f, s))
  {
  }

  lemma ExecutionIsInvisible(f: FilingKey, s: State, a: Action)
    requires IsExecution(a) && !a.Handle?
    ensures Undisturbed(s, Execute(f, s, a))
  {
    if a.Lose? && Asking(s) {
      LosingIsInvisible(f, s);
    }
  }

  lemma LifecycleIsInvisible(s: State, a: Action)
    requires IsLifecycle(a)
    ensures Undisturbed(s, Lifecycle(s, a))
  {
  }

  lemma MessagesAreInvisible(s: State, m: Msg)
    ensures Undisturbed(s, AddMsg(s, m)) && Undisturbed(s, RemoveMsg(s, m))
  {
  }

  lemma NetworkIsInvisible(f: FilingKey, s: State, a: Action)
    requires IsNetwork(a) && !a.Deliver?
    ensures Undisturbed(s, Network(f, s, a))
  {
    match a
    case Duplicate(m) => MessagesAreInvisible(s, m);
    case Drop(m) => MessagesAreInvisible(s, m);
    case Reconcile(_) =>
    case Misjudge(_, _) =>
  }

  /** Crash transparency, first half: crashes, restores, deletions, restarts, checkpoints,
      retries, cancellations, lost and duplicated requests change nothing at Accountable
      and nothing in the ledger. */
  lemma RuntimeEventsAreInvisible(f: FilingKey, s: State, a: Action)
    requires !TouchesServices(a)
    ensures SameServices(s, Step(f, s, a))
    ensures !a.GiveUp? && !a.RestartProvider? ==> Undisturbed(s, Step(f, s, a))
  {
    if IsExecution(a) {
      ExecutionIsInvisible(f, s, a);
    } else if IsLifecycle(a) {
      LifecycleIsInvisible(s, a);
    } else if IsNetwork(a) {
      NetworkIsInvisible(f, s, a);
    }
  }

  /** Filing state, command rows and ledger entry, without duplicate and attempt counters
      and without the provider's own callback bookkeeping. */
  function CoreEntry(e: Entry): Entry {
    e.(attempts := 0, callbackFinished := false)
  }

  predicate SameCore(s: State, s': State) {
    && s'.row == s.row
    && s'.commands.Keys == s.commands.Keys
    && (forall k :: k in s.commands ==> s'.commands[k].(duplicates := 0) == s.commands[k].(duplicates := 0))
    && s'.cell.entry.Some? == s.cell.entry.Some?
    && (s.cell.entry.Some? ==> CoreEntry(s'.cell.entry.value) == CoreEntry(s.cell.entry.value))
  }

  lemma SameServicesSameBusiness(s: State, s': State)
    requires SameServices(s, s')
    ensures BusinessOf(s') == BusinessOf(s) && SameCore(s, s')
  {
  }

  lemma HandledIsPermitted(f: FilingKey, s: State, saved: bool)
    requires Inv(f, s) && Asking(s)
    ensures Permitted(f, BusinessOf(s), BusinessOf(HandleCurrent(f, s, saved)))
  {
    var at := PositionOf(f, s.wf.value);
    assert WorkflowOk(f, s, s.wf.value);
    RequestsAreJustified(f, s, at);
    match RequestOf(f, at)
    case Send(slot, t, detail) =>
      CommandIsPermitted(f, s, slot, t, detail);
      assert BusinessOf(HandleCurrent(f, s, saved)) == BusinessOf(HandleCommand(f, s, slot, t, detail).0);
    case PostSubmission =>
      PostIsPermitted(f, s, s.wf.value.scenario, saved);
      assert BusinessOf(HandleCurrent(f, s, saved)) == BusinessOf(HandlePost(f, s, s.wf.value.scenario, saved).0);
    case _ =>
      assert BusinessOf(HandleCurrent(f, s, saved)) == BusinessOf(s);
  }

  lemma ExecutionIsPermitted(f: FilingKey, s: State, a: Action)
    requires Inv(f, s) && IsExecution(a)
    ensures Permitted(f, BusinessOf(s), BusinessOf(Execute(f, s, a)))
  {
    if !a.Handle? {
      ExecutionIsInvisible(f, s, a);
      SameServicesSameBusiness(s, Execute(f, s, a));
    } else if Asking(s) {
      HandledIsPermitted(f, s, a.saved);
    }
  }

  lemma DeliveredIsPermitted(f: FilingKey, s: State, m: Msg, saved: bool)
    requires Inv(f, s) && UnderWay(s, m)
    ensures Permitted(f, BusinessOf(s), BusinessOf(HandleMsg(f, RemoveMsg(s, m), m, saved)))
  {
    var s0 := RemoveMsg(s, m);
    DropStep(f, s, m);
    UnderWayIsOk(f, s, m);
    assert BusinessOf(s0) == BusinessOf(s);
    match m
    case CommandSent(c) => CommandIsPermitted(f, s0, c.slot, c.commandType, c.detail);
    case PostSent(scenario) => PostIsPermitted(f, s0, scenario, saved);
  }

  lemma NetworkIsPermitted(f: FilingKey, s: State, a: Action)
    requires Inv(f, s) && IsNetwork(a)
    ensures Permitted(f, BusinessOf(s), BusinessOf(Network(f, s, a)))
  {
    if !a.Deliver? {
      NetworkIsInvisible(f, s, a);
      SameServicesSameBusiness(s, Network(f, s, a));
    } else if UnderWay(s, a.msg) {
      DeliveredIsPermitted(f, s, a.msg, a.saved);
    }
  }

  lemma FiredIsPermitted(f: FilingKey, s: State, saved: bool)
    requires Inv(f, s)
    ensures Permitted(f, BusinessOf(s), BusinessOf(FireWorker(s, saved)))
  {
    var s' := FireWorker(s, saved);
    if BusinessOf(s') != BusinessOf(s) {
      assert Enabled(f, BusinessOf(s), Accept);
      assert BusinessOf(s') == Happen(BusinessOf(s), Accept);
    }
  }

  lemma ServiceIsPermitted(f: FilingKey, s: State, a: Action)
    requires Inv(f, s) && !IsExecution(a) && !IsLifecycle(a) && !IsNetwork(a)
    ensures Permitted(f, BusinessOf(s), BusinessOf(AtServices(f, s, a)))
  {
    if a.Fire? {
      FiredIsPermitted(f, s, a.saved);
    } else {
      assert BusinessOf(AtServices(f, s, a)) == BusinessOf(s);
    }
  }

  /** Refinement: each step of the composed system is one permitted effect or none. */
  lemma StepIsPermitted(f: FilingKey, s: State, a: Action)
    requires Inv(f, s)
    ensures Permitted(f, BusinessOf(s), BusinessOf(Step(f, s, a)))
  {
    if IsExecution(a) {
      ExecutionIsPermitted(f, s, a);
    } else if IsLifecycle(a) {
      LifecycleIsInvisible(s, a);
      SameServicesSameBusiness(s, Lifecycle(s, a));
    } else if IsNetwork(a) {
      NetworkIsPermitted(f, s, a);
    } else {
      ServiceIsPermitted(f, s, a);
    }
  }

  lemma CommandStutters(f: FilingKey, s: State, slot: CommandSlot, t: CommandType, detail: string)
    requires ServicesOk(f, s) && CommandMsgOk(f, s, slot, t)
    ensures var s' := HandleCommand(f, s, slot, t, detail).0;
      BusinessOf(s') == BusinessOf(s) ==> SameCore(s, s')
  {
    if slot in s.commands { assert CommandOk(f, slot, s.commands[slot]); }
    CommandMovesRow(f, s, slot, t, detail);
  }

  lemma PostStutters(f: FilingKey, s: State, scenario: Scenario, saved: bool)
    ensures var s' := HandlePost(f, s, scenario, saved).0;
      BusinessOf(s') == BusinessOf(s) ==> SameCore(s, s')
  {
  }

  /** Two states between which nothing new has happened differ in counters at most. */
  predicate Stutters(s: State, s': State) {
    BusinessOf(s') == BusinessOf(s) ==> SameCore(s, s')
  }

  lemma HandledStutters(f: FilingKey, s: State, saved: bool)
    requires Inv(f, s) && Asking(s)
    ensures var s' := HandleCurrent(f, s, saved); BusinessOf(s') == BusinessOf(s) ==> SameCore(s, s')
  {
    var at := PositionOf(f, s.wf.value);
    assert WorkflowOk(f, s, s.wf.value);
    RequestsAreJustified(f, s, at);
    match RequestOf(f, at)
    case Send(slot, t, detail) =>
      CommandStutters(f, s, slot, t, detail);
      assert BusinessOf(HandleCurrent(f, s, saved)) == BusinessOf(HandleCommand(f, s, slot, t, detail).0);
    case PostSubmission =>
      PostStutters(f, s, s.wf.value.scenario, saved);
      assert BusinessOf(HandleCurrent(f, s, saved)) == BusinessOf(HandlePost(f, s, s.wf.value.scenario, saved).0);
    case _ =>
  }

  lemma ExecutionStutters(f: FilingKey, s: State, a: Action)
    requires Inv(f, s) && IsExecution(a)
    ensures Stutters(s, Execute(f, s, a))
  {
    if !a.Handle? {
      ExecutionIsInvisible(f, s, a);
      SameServicesSameBusiness(s, Execute(f, s, a));
    } else if Asking(s) {
      HandledStutters(f, s, a.saved);
    }
  }

  lemma DeliveredStutters(f: FilingKey, s: State, m: Msg, saved: bool)
    requires Inv(f, s) && UnderWay(s, m)
    ensures var s' := HandleMsg(f, RemoveMsg(s, m), m, saved); BusinessOf(s') == BusinessOf(s) ==> SameCore(s, s')
  {
    var s0 := RemoveMsg(s, m);
    DropStep(f, s, m);
    UnderWayIsOk(f, s, m);
    assert BusinessOf(s0) == BusinessOf(s) && SameServices(s, s0);
    match m
    case CommandSent(c) => CommandStutters(f, s0, c.slot, c.commandType, c.detail);
    case PostSent(scenario) => PostStutters(f, s0, scenario, saved);
  }

  lemma NetworkStutters(f: FilingKey, s: State, a: Action)
    requires Inv(f, s) && IsNetwork(a)
    ensures Stutters(s, Network(f, s, a))
  {
    if !a.Deliver? {
      NetworkIsInvisible(f, s, a);
      SameServicesSameBusiness(s, Network(f, s, a));
    } else if UnderWay(s, a.msg) {
      DeliveredStutters(f, s, a.msg, a.saved);
    }
  }

  lemma ServiceStutters(f: FilingKey, s: State, a: Action)
    requires !IsExecution(a) && !IsLifecycle(a) && !IsNetwork(a) && !a.Seed?
    ensures Stutters(s, AtServices(f, s, a))
  {
  }

  /** Crash transparency, second half: a step that is not a new effect is a stutter. It
      leaves the filing, the command rows and the ledger entry as they are, counters aside.
      Seeding a filing again before its first command is the one exception. */
  lemma ReExecutionIsAStutter(f: FilingKey, s: State, a: Action)
    requires Inv(f, s) && !a.Seed?
    ensures BusinessOf(Step(f, s, a)) == BusinessOf(s) ==> SameCore(s, Step(f, s, a))
  {
    if IsExecution(a) {
      ExecutionStutters(f, s, a);
    } else if IsLifecycle(a) {
      LifecycleIsInvisible(s, a);
      SameServicesSameBusiness(s, Lifecycle(s, a));
    } else if IsNetwork(a) {
      NetworkStutters(f, s, a);
    } else {
      ServiceStutters(f, s, a);
    }
  }

  datatype EffectCounts = EffectCounts(intents: nat, filings: nat, settlements: nat, marks: nat, reviews: nat,
      records: nat)

  function One(b: bool): nat {
    if b then 1 else 0
  }

  /** One more step of a run, counted in front of the rest. */
  function Counted(b: Business, b': Business, rest: EffectCounts): EffectCounts {
    EffectCounts(
      rest.intents + One(b'.intent != b.intent), rest.filings + One(b'.effect != b.effect),
      rest.settlements + One(b'.settled != b.settled), rest.marks + One(b'.marked != b.marked),
      rest.reviews + One(b'.reviewed != b.reviewed), rest.records + One(b'.recorded != b.recorded))
  }

  /** How often each effect happens along a run. */
  function Effects(f: FilingKey, s: State, actions: seq<Action>): EffectCounts
    decreases |actions|
  {
    if actions == [] then EffectCounts(0, 0, 0, 0, 0, 0)
    else
      var s' := Step(f, s, actions[0]);
      Counted(BusinessOf(s), BusinessOf(s'), Effects(f, s', actions[1..]))
  }

  /** No effect is counted that has already happened, and no other more than once. */
  predicate Spent(t: EffectCounts, b: Business) {
    && t.intents <= One(!b.intent)
    && t.filings <= One(b.effect.None?)
    && t.settlements <= One(b.settled.None?)
    && t.marks <= One(!b.marked)
    && t.reviews <= One(!b.reviewed)
    && t.records <= One(b.recorded.None?)
  }

  /** A permitted effect uses up what was left of its kind. */
  lemma PermittedEffectsAreSpent(f: FilingKey, b: Business, b': Business)
    requires Permitted(f, b, b')
    ensures One(b'.intent != b.intent) + One(!b'.intent) <= One(!b.intent)
    ensures One(b'.effect != b.effect) + One(b'.effect.None?) <= One(b.effect.None?)
    ensures One(b'.settled != b.settled) + One(b'.settled.None?) <= One(b.settled.None?)
    ensures One(b'.marked != b.marked) + One(!b'.marked) <= One(!b.marked)
    ensures One(b'.reviewed != b.reviewed) + One(!b'.reviewed) <= One(!b.reviewed)
    ensures One(b'.recorded != b.recorded) + One(b'.recorded.None?) <= One(b.recorded.None?)
  {
  }

  lemma SpendingAddsUp(f: FilingKey, b: Business, b': Business, rest: EffectCounts)
    requires Permitted(f, b, b') && Spent(rest, b')
    ensures Spent(Counted(b, b', rest), b)
  {
    PermittedEffectsAreSpent(f, b, b');
  }

  lemma {:induction false} EffectsStillPossible(f: FilingKey, s: State, actions: seq<Action>)
    requires Inv(f, s)
    ensures Spent(Effects(f, s, actions), BusinessOf(s))
    decreases |actions|
  {
    if actions != [] {
      var s' := Step(f, s, actions[0]);
      StepIsPermitted(f, s, actions[0]);
      StepKeepsInv(f, s, actions[0]);
      EffectsStillPossible(f, s', actions[1..]);
      SpendingAddsUp(f, BusinessOf(s), BusinessOf(s'), Effects(f, s', actions[1..]));
    }
  }

  /** Exactly-once effects: over any run of the whole system the intent is declared, the
      return filed, its outcome settled, the filing marked, sent to review and recorded at
      most once each. */
  lemma EachEffectAtMostOnce(f: FilingKey, actions: seq<Action>)
    ensures var t := Effects(f, NEW_FILING, actions);
      t.intents <= 1 && t.filings <= 1 && t.settlements <= 1 && t.marks <= 1 && t.reviews <= 1 && t.records <= 1
  {
    EffectsStillPossible(f, NEW_FILING, actions);
  }

  // ---------- Duplicate POSTs ----------

  /** The next request of the workflow, once its present reply is checkpointed, is a POST. */
  predicate WillPost(f: FilingKey, s: State) {
    s.wf.Some? &&
      var at := PositionOf(f, s.wf.value);
      var next := if s.live.Some? && s.live.value.reply.Some? && s.live.value.reply.value.Got?
                  then Advance(f, s.wf.value.polls, at, s.live.value.reply.value.result) else at;
      next.AtSubmit? || next.AtResubmit?
  }

  function Attempts(c: Cell): nat {
    if c.entry.Some? then c.entry.value.attempts else 0
  }

  /** POSTs that the provider recorded, that are under way, or that come next. */
  function Exposure(f: FilingKey, s: State): nat {
    Attempts(s.cell) + |s.postsOut| + One(WillPost(f, s))
  }

  /** The network neither duplicates POSTs nor lets a lookup overtake one. */
  predicate Prompt(f: FilingKey, s: State, a: Action) {
    && !(a.Duplicate? && a.msg.PostSent?)
    && (a.Handle? && Asking(s) && (PositionOf(f, s.wf.value).AtFindExisting?
        || PositionOf(f, s.wf.value).AtResolve?) ==>
          s.postsOut == multiset{})
  }

  predicate PromptRun(f: FilingKey, s: State, actions: seq<Action>)
    decreases |actions|
  {
    actions != [] ==> Prompt(f, s, actions[0]) && PromptRun(f, Step(f, s, actions[0]), actions[1..])
  }

  /** A POST follows only a lookup that found nothing. */
  lemma OnlyLookupsLeadToPosts(f: FilingKey, polls: nat, at: Position, r: StepResult)
    ensures var next := Advance(f, polls, at, r);
      next.AtSubmit? || next.AtResubmit? ==> (at.AtFindExisting? || at.AtResolve?) && r == StatusRead(NotFound)
  {
  }

  lemma PostAddsOneAttempt(f: FilingKey, s: State, scenario: Scenario, saved: bool)
    requires LedgerOk(f, s)
    ensures var (s', response) := HandlePost(f, s, scenario, saved);
      && Attempts(s'.cell) <= Attempts(s.cell) + 1
      && (ReplyToPost(Some(response)).Failing? ==> Attempts(s'.cell) == 0)
  {
  }

  lemma HandlePostKeepsBound(f: FilingKey, s: State, saved: bool)
    requires Inv(f, s) && Asking(s) && RequestOf(f, PositionOf(f, s.wf.value)) == PostSubmission
    requires Exposure(f, s) <= 1 + s.faults
    ensures var s' := HandleCurrent(f, s, saved); Exposure(f, s') <= 1 + s'.faults && s'.faults == s.faults
  {
    var at := PositionOf(f, s.wf.value);
    var (s', response) := HandlePost(f, s, s.wf.value.scenario, saved);
    PostAddsOneAttempt(f, s, s.wf.value.scenario, saved);
    assert at.AtSubmit? || at.AtResubmit?;
    var reply := ReplyToPost(Some(response));
    if reply.Got? {
      OnlyLookupsLeadToPosts(f, s.wf.value.polls, at, reply.result);
    }
  }

  lemma HandleKeepsBound(f: FilingKey, s: State, saved: bool)
    requires Inv(f, s) && Addressable(f) && Asking(s) && Prompt(f, s, Handle(saved))
    requires RequestOf(f, PositionOf(f, s.wf.value)) != PostSubmission
    requires Exposure(f, s) <= 1 + s.faults
    ensures var s' := HandleCurrent(f, s, saved); Exposure(f, s') <= 1 + s'.faults && s'.faults == s.faults
  {
    var s' := HandleCurrent(f, s, saved);
    assert s'.wf == s.wf && s'.cell == s.cell && s'.postsOut == s.postsOut;
    if s'.live.value.reply.Some? && s'.live.value.reply.value.Got? {
      OnlyLookupsLeadToPosts(f, s.wf.value.polls, PositionOf(f, s.wf.value), s'.live.value.reply.value.result);
    }
  }

  /** A lost POST may still be handled, but the workflow will look before it posts again. */
  lemma LostPostKeepsBound(f: FilingKey, s: State)
    requires Asking(s) && RequestOf(f, PositionOf(f, s.wf.value)) == PostSubmission
    ensures var s' := LoseCurrent(f, s); Exposure(f, s') <= Exposure(f, s) && s'.faults == s.faults
  {
    var r := SubmitDone(SubmitOutcome(VerdictAmbiguous, "transport failure"));
    OnlyLookupsLeadToPosts(f, s.wf.value.polls, PositionOf(f, s.wf.value), r);
  }

  lemma FailureKeepsBound(f: FilingKey, s: State, message: string)
    requires Asking(s)
    ensures var s' := WithReply(s, Failing(message)); Exposure(f, s') == Exposure(f, s) && s'.faults == s.faults
  {
  }

  lemma LoseKeepsBound(f: FilingKey, s: State)
    requires Asking(s)
    ensures var s' := LoseCurrent(f, s); Exposure(f, s') <= Exposure(f, s) && s'.faults == s.faults
  {
    match RequestOf(f, PositionOf(f, s.wf.value))
    case PostSubmission => LostPostKeepsBound(f, s);
    case Send(slot, t, detail) =>
      var sent := AddMsg(s, CommandSent(CommandMsg(slot, t, detail)));
      assert Exposure(f, sent) == Exposure(f, s) && sent.faults == s.faults;
      FailureKeepsBound(f, sent, "transport failure");
    case ReadFiling => FailureKeepsBound(f, s, "transport failure");
    case ReadStatus(_) => FailureKeepsBound(f, s, "transport failure");
    case Receive =>
    case Nothing =>
  }

  lemma ReceiveKeepsBound(f: FilingKey, s: State, received: Received)
    requires Asking(s)
    ensures var s' := ReceiveCurrent(f, s, received); Exposure(f, s') <= Exposure(f, s) && s'.faults == s.faults
  {
    var s' := ReceiveCurrent(f, s, received);
    if s'.live.value.reply.Some? && s'.live.value.reply.value.Got? {
      OnlyLookupsLeadToPosts(f, s.wf.value.polls, PositionOf(f, s.wf.value), s'.live.value.reply.value.result);
    }
  }

  lemma CheckpointKeepsBound(f: FilingKey, s: State)
    ensures var s' := CheckpointCurrent(f, s); Exposure(f, s') <= Exposure(f, s) && s'.faults == s.faults
  {
    if s.wf.Some? && s.live.Some? && s.live.value.reply.Some? && !CanRetry(f, s) {
      var w := s.wf.value;
      var r := ResultOf(s.live.value.reply.value);
      var w' := w.(history := w.history + [r]);
      assert w'.history[..|w'.history| - 1] == w.history;
      assert PositionOf(f, w') == Advance(f, w.polls, PositionOf(f, w), r);
      OnlyLookupsLeadToPosts(f, w.polls, PositionOf(f, w), r);
    }
  }

  /** Only a crash and a restore may bring a POST back, and each is counted as a fault. */
  lemma LifecycleKeepsBound(f: FilingKey, s: State, a: Action)
    requires IsLifecycle(a)
    ensures var s' := Lifecycle(s, a); Exposure(f, s') - s'.faults <= Exposure(f, s) - s.faults
  {
    var s' := Lifecycle(s, a);
    assert s'.cell == s.cell && s'.postsOut == s.postsOut;
    if a.Start? && s.wf.None? {
      assert PositionOf(f, s'.wf.value) == AtValidate;
    }
  }

  lemma RetryKeepsBound(f: FilingKey, s: State)
    ensures var s' := RetryCurrent(f, s); Exposure(f, s') <= Exposure(f, s) && s'.faults == s.faults
  {
  }

  lemma SettleKeepsBound(f: FilingKey, s: State)
    requires Asking(s)
    ensures var s' := SettleCurrent(f, s); Exposure(f, s') <= Exposure(f, s) && s'.faults == s.faults
  {
  }

  /** Handling a POST that was under way turns it into an attempt. */
  lemma DeliverKeepsBound(f: FilingKey, s: State, m: Msg, saved: bool)
    requires Inv(f, s) && UnderWay(s, m)
    ensures var s' := HandleMsg(f, RemoveMsg(s, m), m, saved);
      Exposure(f, s') <= Exposure(f, s) && s'.faults == s.faults
  {
    if m.PostSent? {
      PostAddsOneAttempt(f, RemoveMsg(s, m), m.scenario, saved);
    }
  }

  lemma MessagesKeepBound(f: FilingKey, s: State, m: Msg)
    ensures Exposure(f, RemoveMsg(s, m)) <= Exposure(f, s) && RemoveMsg(s, m).faults == s.faults
    ensures m.CommandSent? ==> Exposure(f, AddMsg(s, m)) == Exposure(f, s) && AddMsg(s, m).faults == s.faults
  {
    if m.PostSent? {
      assert |s.postsOut - multiset{m.scenario}| <= |s.postsOut|;
    }
  }

  lemma ReconcileKeepsBound(f: FilingKey, s: State, detail: string)
    ensures var s' := ReconcileOutcome(f, s, detail); Exposure(f, s') == Exposure(f, s) && s'.faults == s.faults
  {
  }

  lemma NetworkKeepsBound(f: FilingKey, s: State, a: Action)
    requires Inv(f, s) && Addressable(f) && IsNetwork(a) && Prompt(f, s, a)
    ensures var s' := Network(f, s, a); Exposure(f, s') <= Exposure(f, s) && s'.faults == s.faults
  {
    match a
    case Deliver(m, saved) => if UnderWay(s, m) { DeliverKeepsBound(f, s, m, saved); }
    case Duplicate(m) => MessagesKeepBound(f, s, m);
    case Drop(m) => MessagesKeepBound(f, s, m);
    case Reconcile(detail) => ReconcileKeepsBound(f, s, detail);
    case Misjudge(_, _) =>
  }

  lemma ProviderKeepsBound(f: FilingKey, s: State, a: Action)
    requires !IsExecution(a) && !IsLifecycle(a) && !IsNetwork(a)
    ensures var s' := AtServices(f, s, a); Exposure(f, s') == Exposure(f, s) && s'.faults == s.faults
  {
    var s' := AtServices(f, s, a);
    assert s'.wf == s.wf && s'.live == s.live && s'.postsOut == s.postsOut;
  }

  lemma HandledKeepsBound(f: FilingKey, s: State, saved: bool)
    requires Inv(f, s) && Addressable(f) && Asking(s) && Prompt(f, s, Handle(saved))
    requires Exposure(f, s) <= 1 + s.faults
    ensures var s' := HandleCurrent(f, s, saved); Exposure(f, s') <= 1 + s'.faults
  {
    if RequestOf(f, PositionOf(f, s.wf.value)) == PostSubmission {
      HandlePostKeepsBound(f, s, saved);
    } else {
      HandleKeepsBound(f, s, saved);
    }
  }

  lemma ExecuteKeepsBound(f: FilingKey, s: State, a: Action)
    requires Inv(f, s) && Addressable(f) && IsExecution(a) && Prompt(f, s, a)
    requires Exposure(f, s) <= 1 + s.faults
    ensures var s' := Execute(f, s, a); Exposure(f, s') <= 1 + s'.faults
  {
    if a.Checkpoint? {
      CheckpointKeepsBound(f, s);
    } else if a.Retry? {
      RetryKeepsBound(f, s);
    } else if Asking(s) {
      match a
      case Handle(saved) => HandledKeepsBound(f, s, saved);
      case Misread(_) =>
      case Lose => LoseKeepsBound(f, s);
      case Recv(received) => ReceiveKeepsBound(f, s, received);
      case Settle => SettleKeepsBound(f, s);
    }
  }

  lemma StepKeepsBound(f: FilingKey, s: State, a: Action)
    requires Inv(f, s) && Addressable(f) && Prompt(f, s, a)
    requires Exposure(f, s) <= 1 + s.faults
    ensures var s' := Step(f, s, a); Exposure(f, s') <= 1 + s'.faults
  {
    if IsExecution(a) {
      ExecuteKeepsBound(f, s, a);
    } else if IsLifecycle(a) {
      LifecycleKeepsBound(f, s, a);
    } else if IsNetwork(a) {
      NetworkKeepsBound(f, s, a);
    } else {
      ProviderKeepsBound(f, s, a);
    }
  }

  lemma {:induction false} RunKeepsBound(f: FilingKey, s: State, actions: seq<Action>)
    requires Inv(f, s) && Addressable(f) && PromptRun(f, s, actions)
    requires Exposure(f, s) <= 1 + s.faults
    ensures var s' := RunAll(f, s, actions); Exposure(f, s') <= 1 + s'.faults
    decreases |actions|
  {
    if actions != [] {
      StepKeepsBound(f, s, actions[0]);
      StepKeepsInv(f, s, actions[0]);
      RunKeepsBound(f, Step(f, s, actions[0]), actions[1..]);
    }
  }

  /** Duplicate POSTs: when each POST is handled before the next lookup, the provider sees
      at most one repeated submission per crash or history rollback, hence none without. */
  lemma DuplicatePostsNeedFaults(f: FilingKey, actions: seq<Action>)
    requires Addressable(f) && PromptRun(f, NEW_FILING, actions)
    ensures var s := Reached(f, actions);
      s.cell.entry.Some? ==> s.cell.entry.value.attempts - 1 <= s.faults
  {
    RunKeepsBound(f, NEW_FILING, actions);
  }
}
