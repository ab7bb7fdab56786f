/** What disturbs a filing's workflow, and what is left of it. The services keep what they have;
    the workflow goes on from what it had checkpointed, from a backup, or from nothing; requests
    and callbacks arrive late, twice, or never. */
module Disturbances {
  import opened Domain
  import opened CommandStore
  import opened ProviderLedger
  import opened Filing
  import opened Protocol
  import opened ProtocolInvariant
  import opened Guarantees
  import opened Runs
  import opened Submission
  import opened Calm
  import opened Scenarios

  // ---------- Cancelling and resuming ----------

  /** Cancelling stops the workflow and changes nothing else. */
  lemma CancelledStops(f: FilingKey, s: State)
    requires Asking(s)
    ensures var s' := RunAll(f, s, [Cancel, Crash]);
      && SameServices(s, s') && s'.worker == s.worker && s'.live.None?
      && s'.wf == Some(s.wf.value.(status := RunStatus.Cancelled))
  {
    TwoActions(f, s, Cancel, Crash);
  }

  /** A cancelled workflow stays so, and sends nothing, whatever happens around it, until it is
      resumed, restored or deleted. */
  lemma CancelledStays(f: FilingKey, s: State, a: Action)
    requires s.wf.Some? && s.wf.value.status == RunStatus.Cancelled && s.live.None?
    requires !a.Resume? && !a.Restore? && !a.Delete?
    ensures var s' := Step(f, s, a); s'.wf == s.wf && s'.live.None?
    ensures IsExecution(a) ==> Step(f, s, a) == s
  {
    if a.Deliver? { DeliveringKeepsPast(f, s, a.msg, a.saved); }
  }

  lemma ResumedWaits(f: FilingKey, s: State, x: Scene)
    requires s.wf.Some? && s.live.None?
    requires s.wf.value.status == RunStatus.Cancelled || s.wf.value.status == Errored
    requires Shows(s, x) && x.polls == s.wf.value.polls && x.scenario == s.wf.value.scenario
    ensures Waits(f, Step(f, Step(f, s, Resume), Begin), PositionOf(f, s.wf.value), x)
  {
    var s1 := Step(f, s, Resume);
    assert s1.wf == Some(s.wf.value.(status := Running)) && s1.live.None? && Shows(s1, x);
    assert Step(f, s1, Begin) == s1.(live := Some(Live(0, None)));
  }

  /** Resuming takes it on from its last checkpoint. */
  lemma ResumedWorks(f: FilingKey, s: State, x: Scene)
    requires Addressable(f) && Inv(f, s) && s.wf.Some? && s.live.None?
    requires s.wf.value.status == RunStatus.Cancelled || s.wf.value.status == Errored
    requires Shows(s, x) && x.polls == s.wf.value.polls && x.scenario == s.wf.value.scenario
    ensures Works(f, RunAll(f, s, [Resume, Begin]), PositionOf(f, s.wf.value), x)
  {
    ResumedWaits(f, s, x);
    TwoActions(f, s, Resume, Begin);
    RunKeepsInv(f, s, [Resume, Begin]);
  }

  /** A cancelled workflow whose operation has been completed adopts the outcome when it is resumed;
      it takes another POST only if it was about to send one. */
  lemma ResumedAdopts(f: FilingKey, s: State, o: Outcome) returns (actions: seq<Action>)
    requires Addressable(f) && Inv(f, s) && s.wf.Some? && s.live.None?
    requires s.wf.value.status == RunStatus.Cancelled || s.wf.value.status == Errored
    requires s.row.Some? && Open(s.row.value) && Settled(s, o) && s.wf.value.polls > 0
    requires Expects(PositionOf(f, s.wf.value), s.wf.value.polls)
    ensures var s' := RunAll(f, s, [Resume, Begin]); var at := PositionOf(f, s.wf.value);
      && Concludes(f, s', actions, o)
      && (!at.AtSubmit? && !at.AtResubmit? ==> RunAll(f, s', actions).cell == s.cell)
  {
    var w := s.wf.value;
    var x := Scene(s.row.value, w.polls, w.scenario, s.cell, s.worker, SubmittedSlot in s.commands);
    SettledIsHeld(f, s, o);
    ResumedWorks(f, s, x);
    actions := CompletedIsConcluded(f, RunAll(f, s, [Resume, Begin]), PositionOf(f, w), x, o);
  }

  // ---------- Restoring and rebuilding ----------

  lemma {:induction false} PastStays(f: FilingKey, s: State, actions: seq<Action>)
    ensures s.past <= RunAll(f, s, actions).past
    decreases |actions|
  {
    if actions != [] {
      PastOnlyGrows(f, s, actions[0]);
      PastStays(f, Step(f, s, actions[0]), actions[1..]);
    }
  }

  /** Whatever the workflow database ever held can come back at any later time; the services stay
      where they are. */
  lemma AnyBackupComesBack(f: FilingKey, before: seq<Action>, after: seq<Action>, w: Workflow)
    requires Reached(f, before).wf == Some(w)
    ensures var s := Reached(f, before + after); var s' := Step(f, s, Restore(w));
      s'.wf == Some(w) && s'.live.None? && SameServices(s, s')
  {
    ReachedIsOk(f, before);
    PastStays(f, Reached(f, before), after);
    RunConcat(f, NEW_FILING, before, after);
  }

  /** And a workflow that was running then runs again, from where it was then. */
  lemma RestoredWorks(f: FilingKey, s: State, w: Workflow, x: Scene)
    requires Addressable(f) && Inv(f, s) && w in s.past && w.status == Running
    requires Shows(s, x) && x.polls == w.polls && x.scenario == w.scenario
    ensures Works(f, RunAll(f, s, [Restore(w), Begin]), PositionOf(f, w), x)
  {
    TwoActions(f, s, Restore(w), Begin);
    RunKeepsInv(f, s, [Restore(w), Begin]);
  }

  /** With its database lost altogether, the workflow can be rebuilt. */
  lemma RebuiltWorks(f: FilingKey, s: State, x: Scene)
    requires Addressable(f) && Inv(f, s) && Shows(s, x)
    ensures Works(f, RunAll(f, s, [Delete, Start(x.scenario, x.polls), Begin]), AtValidate, x)
  {
    assert Step(f, s, Delete) == s.(wf := None, live := None);
    StartedWaits(f, Step(f, s, Delete), x);
    ThreeActions(f, s, Delete, Start(x.scenario, x.polls), Begin);
    RunKeepsInv(f, s, [Delete, Start(x.scenario, x.polls), Begin]);
  }

  /** Either way it adopts what the provider has completed; a rebuilt one without another POST. */
  lemma RestoredAdopts(f: FilingKey, s: State, w: Workflow, o: Outcome) returns (actions: seq<Action>)
    requires Addressable(f) && Inv(f, s) && w in s.past && w.status == Running
    requires s.row.Some? && Open(s.row.value) && Settled(s, o)
    requires w.polls > 0 && Expects(PositionOf(f, w), w.polls)
    ensures Concludes(f, RunAll(f, s, [Restore(w), Begin]), actions, o)
  {
    var x := Scene(s.row.value, w.polls, w.scenario, s.cell, s.worker, SubmittedSlot in s.commands);
    SettledIsHeld(f, s, o);
    RestoredWorks(f, s, w, x);
    actions := CompletedIsConcluded(f, RunAll(f, s, [Restore(w), Begin]), PositionOf(f, w), x, o);
  }

  lemma RebuiltAdopts(f: FilingKey, s: State, scenario: Scenario, polls: nat, o: Outcome)
    returns (actions: seq<Action>)
    requires Addressable(f) && Inv(f, s) && s.row.Some? && Open(s.row.value) && Settled(s, o) && polls > 0
    ensures var s' := RunAll(f, s, [Delete, Start(scenario, polls), Begin]);
      Concludes(f, s', actions, o) && RunAll(f, s', actions).cell == s.cell
  {
    var x := Scene(s.row.value, polls, scenario, s.cell, s.worker, SubmittedSlot in s.commands);
    SettledIsHeld(f, s, o);
    RebuiltWorks(f, s, x);
    actions := CompletedIsConcluded(f, RunAll(f, s, [Delete, Start(scenario, polls), Begin]), AtValidate, x, o);
  }

  // ---------- Requests under way ----------

  function Copies(s: State, m: Msg): nat {
    match m
    case CommandSent(c) => s.commandsOut[c]
    case PostSent(scenario) => s.postsOut[scenario]
  }

  lemma HandlingKeepsCopies(f: FilingKey, s: State, m: Msg, saved: bool, other: Msg)
    ensures Copies(HandleMsg(f, s, m, saved), other) == Copies(s, other)
  {
  }

  lemma AddingCounts(s: State, m: Msg, other: Msg)
    ensures Copies(AddMsg(s, m), other) == Copies(s, other) + if other == m then 1 else 0
  {
  }

  lemma RemovingCounts(s: State, m: Msg, other: Msg)
    requires Copies(s, m) > 0
    ensures Copies(RemoveMsg(s, m), other) == Copies(s, other) - if other == m then 1 else 0
  {
  }

  /** The network duplicates, drops and delivers one request at a time, and no other. */
  lemma CopiesAreCounted(f: FilingKey, s: State, m: Msg, saved: bool, other: Msg)
    requires Copies(s, m) > 0
    ensures Copies(Step(f, s, Duplicate(m)), other) == Copies(s, other) + if other == m then 1 else 0
    ensures Copies(Step(f, s, Drop(m)), other) == Copies(s, other) - if other == m then 1 else 0
    ensures Copies(Step(f, s, Deliver(m, saved)), other) == Copies(s, other) - if other == m then 1 else 0
  {
    assert UnderWay(s, m);
    assert Step(f, s, Duplicate(m)) == AddMsg(s, m);
    assert Step(f, s, Drop(m)) == RemoveMsg(s, m);
    assert Step(f, s, Deliver(m, saved)) == HandleMsg(f, RemoveMsg(s, m), m, saved);
    AddingCounts(s, m, other);
    RemovingCounts(s, m, other);
    HandlingKeepsCopies(f, RemoveMsg(s, m), m, saved, other);
  }

  /** A command whose answer is lost has its whole effect when it arrives; the workflow only knows
      that it failed. */
  lemma LostCommandArrives(f: FilingKey, s: State, slot: CommandSlot, t: CommandType, detail: string, saved: bool)
    requires Asking(s) && RequestOf(f, PositionOf(f, s.wf.value)) == Send(slot, t, detail)
    ensures var m := CommandSent(CommandMsg(slot, t, detail)); var sent := Step(f, s, Lose);
      var s' := Step(f, sent, Deliver(m, saved)); var handled := HandleCommand(f, s, slot, t, detail).0;
      && SameServices(s, sent) && Copies(sent, m) == Copies(s, m) + 1
      && s'.row == handled.row && s'.commands == handled.commands && s'.cell == s.cell
      && s'.wf == s.wf && s'.live.Some? && s'.live.value.reply == Some(Failing("transport failure"))
  {
  }

  // ---------- Late resolution ----------

  predicate Unresolved(row: FilingRow) {
    Open(row) || row.state == NeedsReview
  }

  /** The filing has this outcome and the command on record; nothing else has changed. */
  predicate ResolvedTo(f: FilingKey, s: State, s': State, o: Outcome, detail: string)
    requires s.row.Some?
  {
    && s'.row == Some(s.row.value.(state := MapOutcome(o))) && s'.cell == s.cell && s'.wf == s.wf
    && OutcomeSlot in s'.commands && s'.commands[OutcomeSlot].request == OutcomeOnRecord(f, o, detail)
  }

  lemma OutcomeIsTaken(f: FilingKey, s: State, o: Outcome, detail: string)
    requires Inv(f, s) && s.row.Some? && Unresolved(s.row.value) && (o == OutcomeAccepted || o == OutcomeRejected)
    ensures ResolvedTo(f, s, HandleCommand(f, s, OutcomeSlot, OutcomeCommand(MapOutcome(o)), detail).0, o, detail)
  {
    CommandKeysAreCanonical(f);
    assert CommandKey(f, OutcomeSlot)[0] == 'f';
  }

  lemma SentArrives(f: FilingKey, s: State, c: CommandMsg, saved: bool)
    ensures Step(f, AddMsg(s, CommandSent(c)), Deliver(CommandSent(c), saved))
            == HandleCommand(f, s, c.slot, c.commandType, c.detail).0
  {
    var sent := AddMsg(s, CommandSent(c));
    assert UnderWay(sent, CommandSent(c));
    assert s.commandsOut + multiset{c} - multiset{c} == s.commandsOut;
    assert RemoveMsg(sent, CommandSent(c)) == s;
  }

  lemma ReconcilerSends(f: FilingKey, s: State, o: Outcome, detail: string)
    requires o == OutcomeAccepted || o == OutcomeRejected
    ensures Addressable(f) && Settled(s, o) ==> Step(f, s, Reconcile(detail)) == AddMsg(s, OutcomeMsg(o, detail))
    ensures !Addressable(f) ==> Step(f, s, Misjudge(o, detail)) == AddMsg(s, OutcomeMsg(o, detail))
  {
  }

  lemma SentIsResolved(f: FilingKey, s: State, a: Action, o: Outcome, detail: string, saved: bool)
    requires Inv(f, s) && s.row.Some? && Unresolved(s.row.value) && (o == OutcomeAccepted || o == OutcomeRejected)
    requires Step(f, s, a) == AddMsg(s, OutcomeMsg(o, detail))
    ensures ResolvedTo(f, s, RunAll(f, s, [a, Deliver(OutcomeMsg(o, detail), saved)]), o, detail)
  {
    OutcomeIsTaken(f, s, o, detail);
    SentArrives(f, s, CommandMsg(OutcomeSlot, OutcomeCommand(MapOutcome(o)), detail), saved);
    TwoActions(f, s, a, Deliver(OutcomeMsg(o, detail), saved));
  }

  /** A reconciler that finds the operation of an addressable filing completed resolves the filing,
      in review or not, with its own reason, without any POST and whatever the workflow is doing. */
  lemma LateResolution(f: FilingKey, s: State, o: Outcome, detail: string, saved: bool)
    requires Inv(f, s) && Addressable(f) && s.row.Some? && Unresolved(s.row.value) && Settled(s, o)
    ensures ResolvedTo(f, s, RunAll(f, s, [Reconcile(detail), Deliver(OutcomeMsg(o, detail), saved)]), o, detail)
  {
    SettledIsHeld(f, s, o);
    ReconcilerSends(f, s, o, detail);
    SentIsResolved(f, s, Reconcile(detail), o, detail, saved);
  }

  /** For a filing that is not addressable its lookup may stand for anything, and so may what it
      resolves the filing to. */
  lemma MisjudgedResolution(f: FilingKey, s: State, o: Outcome, detail: string, saved: bool)
    requires Inv(f, s) && !Addressable(f) && s.row.Some? && Unresolved(s.row.value)
    requires o == OutcomeAccepted || o == OutcomeRejected
    ensures ResolvedTo(f, s, RunAll(f, s, [Misjudge(o, detail), Deliver(OutcomeMsg(o, detail), saved)]), o, detail)
  {
    ReconcilerSends(f, s, o, detail);
    SentIsResolved(f, s, Misjudge(o, detail), o, detail, saved);
  }

  // ---------- Callbacks ----------

  /** The callbacks that have arrived are true, and of the operation. */
  predicate TrueCallback(f: FilingKey, s: State, cb: Callback) {
    var id := ProviderOperationID(f);
    && s.cell.entry.Some? && s.cell.entry.value.status == Completed && s.cell.entry.value.outcome == OutcomeAccepted
    && s.cell.entry.value.scenario != ScenarioNoCallbackDone
    && cb.outcome == OutcomeAccepted && cb.submissionId == id && (cb.id == id + "-cb1" || cb.id == id + "-cb2")
  }

  /** What was completed stays so, and is the same operation. */
  predicate SameCompletion(s: State, s': State) {
    s.cell.entry.Some? && s.cell.entry.value.status == Completed ==>
      && s'.cell.entry.Some? && s'.cell.entry.value.status == Completed
      && s'.cell.entry.value.outcome == s.cell.entry.value.outcome
      && s'.cell.entry.value.scenario == s.cell.entry.value.scenario
  }

  predicate KeepsCallbacks(s: State, s': State) {
    s'.inbox == s.inbox && SameCompletion(s, s')
  }

  lemma HandlingKeepsCallbacks(f: FilingKey, s: State, saved: bool)
    requires Asking(s)
    ensures KeepsCallbacks(s, HandleCurrent(f, s, saved))
  {
  }

  lemma LosingKeepsCallbacks(f: FilingKey, s: State)
    requires Asking(s)
    ensures KeepsCallbacks(s, LoseCurrent(f, s))
  {
  }

  lemma ExecutingKeepsCallbacks(f: FilingKey, s: State, a: Action)
    requires IsExecution(a)
    ensures KeepsCallbacks(s, Execute(f, s, a))
  {
    if Asking(s) {
      if a.Handle? {
        HandlingKeepsCallbacks(f, s, a.saved);
      } else if a.Lose? {
        LosingKeepsCallbacks(f, s);
      }
    }
  }

  lemma DeliveringKeepsCallbacks(f: FilingKey, s: State, m: Msg, saved: bool)
    ensures KeepsCallbacks(s, HandleMsg(f, s, m, saved))
  {
  }

  lemma QueuesKeepCallbacks(f: FilingKey, s: State, m: Msg)
    ensures KeepsCallbacks(s, AddMsg(s, m)) && KeepsCallbacks(s, RemoveMsg(s, m))
  {
  }

  lemma NetworkKeepsCallbacks(f: FilingKey, s: State, a: Action)
    requires IsNetwork(a)
    ensures KeepsCallbacks(s, Network(f, s, a))
  {
    match a
    case Deliver(m, saved) =>
      QueuesKeepCallbacks(f, s, m);
      DeliveringKeepsCallbacks(f, RemoveMsg(s, m), m, saved);
    case Duplicate(m) => QueuesKeepCallbacks(f, s, m);
    case Drop(m) => QueuesKeepCallbacks(f, s, m);
    case Reconcile(detail) =>
      if s.cell.entry.Some? { QueuesKeepCallbacks(f, s, OutcomeMsg(s.cell.entry.value.outcome, detail)); }
    case Misjudge(o, detail) => QueuesKeepCallbacks(f, s, OutcomeMsg(o, detail));
  }

  ghost predicate TrueInbox(f: FilingKey, s: State) {
    forall cb :: cb in s.inbox ==> TrueCallback(f, s, cb)
  }

  lemma ServicesKeepInboxTrue(f: FilingKey, s: State, a: Action)
    requires !IsExecution(a) && !IsLifecycle(a) && !IsNetwork(a) && Inv(f, s) && TrueInbox(f, s)
    ensures TrueInbox(f, AtServices(f, s, a))
  {
  }

  lemma StepKeepsInboxTrue(f: FilingKey, s: State, a: Action)
    requires Inv(f, s) && TrueInbox(f, s)
    ensures TrueInbox(f, Step(f, s, a))
  {
    if IsExecution(a) {
      ExecutingKeepsCallbacks(f, s, a);
    } else if IsNetwork(a) {
      NetworkKeepsCallbacks(f, s, a);
    } else if !IsLifecycle(a) {
      ServicesKeepInboxTrue(f, s, a);
    }
  }

  lemma {:induction false} InboxStaysTrue(f: FilingKey, s: State, actions: seq<Action>)
    requires Inv(f, s) && TrueInbox(f, s)
    ensures TrueInbox(f, RunAll(f, s, actions))
    decreases |actions|
  {
    if actions != [] {
      StepKeepsInboxTrue(f, s, actions[0]);
      StepKeepsInv(f, s, actions[0]);
      InboxStaysTrue(f, Step(f, s, actions[0]), actions[1..]);
    }
  }

  /** In every reachable state: a callback comes only from an accepted operation that has been
      completed and stored, and never for the scenario that leaves it out. */
  lemma CallbacksAreTrue(f: FilingKey, actions: seq<Action>, cb: Callback)
    requires cb in Reached(f, actions).inbox
    ensures TrueCallback(f, Reached(f, actions), cb)
  {
    ReachedIsOk(f, []);
    InboxStaysTrue(f, NEW_FILING, actions);
  }
}
