/** What the submitted mark at Accountable says about the provider: it does not always mean
    that the provider holds the operation. This module shows that it takes an ambiguous answer
    to the resubmission, and exactly when such a one leads there. */
module Submission {
  import opened Domain
  import opened CommandStore
  import opened ProviderLedger
  import opened Filing
  import opened Protocol
  import opened ProtocolInvariant
  import opened Guarantees
  import opened Runs

  /** The resubmission, too, was answered ambiguously; the workflow then goes on as if the
      provider had accepted. */
  predicate TwiceAmbiguous(at: Position, r: StepResult) {
    at.AtResubmit? && r.SubmitDone? && r.outcome.verdict == VerdictAmbiguous
  }

  predicate Doubtful(f: FilingKey, polls: nat, history: seq<StepResult>)
    decreases |history|
  {
    history != [] &&
      var n := |history| - 1;
      Doubtful(f, polls, history[..n]) || TwiceAmbiguous(Replay(f, polls, history[..n]), history[n])
  }

  /** The workflow takes the operation for accepted and has not yet concluded. */
  predicate TakenForAccepted(at: Position) {
    at.AtMarkSubmitted? || at.AtRecv? || at.AtPollStatus?
  }

  ghost predicate Doubted(f: FilingKey, s: State) {
    exists w :: w in s.past && Doubtful(f, w.polls, w.history)
  }

  predicate ReplyClaimsNothing(f: FilingKey, s: State) {
    s.wf.Some? && s.live.Some? && s.live.value.reply.Some? && s.live.value.reply.value.Got? ==>
      var at, r := PositionOf(f, s.wf.value), s.live.value.reply.value.result;
      TakenForAccepted(Advance(f, s.wf.value.polls, at, r)) ==> TwiceAmbiguous(at, r)
  }

  /** While the provider holds nothing and no history is doubtful, nobody has taken the
      operation for accepted: no mark, no mark under way, no history beyond submission. */
  predicate NothingClaimed(f: FilingKey, s: State) {
    && SubmittedSlot !in s.commands
    && (forall c :: c in s.commandsOut ==> c.slot != SubmittedSlot)
    && (forall w :: w in s.past ==> !TakenForAccepted(PositionOf(f, w)))
    && ReplyClaimsNothing(f, s)
  }

  ghost predicate Claims(f: FilingKey, s: State) {
    s.cell.entry.Some? || Doubted(f, s) || NothingClaimed(f, s)
  }

  lemma DoubtsStay(f: FilingKey, s: State, s': State)
    requires s.past <= s'.past && Doubted(f, s)
    ensures Doubted(f, s')
  {
  }

  lemma HandlingKeepsPast(f: FilingKey, s: State, saved: bool)
    requires Asking(s)
    ensures HandleCurrent(f, s, saved).past == s.past && HandleCurrent(f, s, saved).wf == s.wf
  {
  }

  lemma LosingKeepsPast(f: FilingKey, s: State)
    requires Asking(s)
    ensures LoseCurrent(f, s).past == s.past && LoseCurrent(f, s).wf == s.wf
  {
  }

  lemma ExecutingKeepsPast(f: FilingKey, s: State, a: Action)
    requires IsExecution(a)
    ensures s.past <= Execute(f, s, a).past
  {
    if Asking(s) {
      if a.Handle? {
        HandlingKeepsPast(f, s, a.saved);
      } else if a.Lose? {
        LosingKeepsPast(f, s);
      }
    }
  }

  lemma DeliveringKeepsPast(f: FilingKey, s: State, m: Msg, saved: bool)
    ensures var s' := HandleMsg(f, RemoveMsg(s, m), m, saved);
      s'.past == s.past && s'.wf == s.wf && s'.live == s.live && s'.commandsOut <= s.commandsOut
  {
  }

  lemma NetworkKeepsPast(f: FilingKey, s: State, a: Action)
    requires IsNetwork(a)
    ensures s.past == Network(f, s, a).past
  {
    if a.Deliver? && UnderWay(s, a.msg) {
      DeliveringKeepsPast(f, s, a.msg, a.saved);
    }
  }

  lemma PastOnlyGrows(f: FilingKey, s: State, a: Action)
    ensures s.past <= Step(f, s, a).past
  {
    if IsExecution(a) {
      ExecutingKeepsPast(f, s, a);
    } else if IsNetwork(a) {
      NetworkKeepsPast(f, s, a);
    }
  }

  /** Only its own command stores a slot. */
  lemma OtherSlotsStay(f: FilingKey, s: State, slot: CommandSlot, t: CommandType, detail: string)
    requires slot != SubmittedSlot && SubmittedSlot !in s.commands
    ensures SubmittedSlot !in HandleCommand(f, s, slot, t, detail).0.commands
  {
  }

  lemma ReplyClaims(f: FilingKey, s: State, reply: Attempted)
    requires NothingClaimed(f, s) && s.wf.Some?
    requires reply.Got? ==>
      var at := PositionOf(f, s.wf.value);
      TakenForAccepted(Advance(f, s.wf.value.polls, at, reply.result)) ==> TwiceAmbiguous(at, reply.result)
    ensures NothingClaimed(f, WithReply(s, reply))
  {
    var s' := WithReply(s, reply);
    assert s'.commands == s.commands && s'.past == s.past && s'.wf == s.wf && s'.commandsOut == s.commandsOut;
  }

  lemma CommandClaims(f: FilingKey, s: State, slot: CommandSlot, t: CommandType, detail: string)
    requires Asking(s) && NothingClaimed(f, s) && slot != SubmittedSlot
    requires RequestOf(f, PositionOf(f, s.wf.value)) == Send(slot, t, detail)
    ensures var (s', reply) := HandleCommand(f, s, slot, t, detail);
      NothingClaimed(f, WithReply(s', ReplyToCommand(reply)))
  {
    OtherSlotsStay(f, s, slot, t, detail);
  }

  lemma PostClaims(f: FilingKey, s: State, saved: bool)
    requires Asking(s) && s.cell.entry.None? && NothingClaimed(f, s)
    requires RequestOf(f, PositionOf(f, s.wf.value)) == PostSubmission
    ensures var (s', response) := HandlePost(f, s, s.wf.value.scenario, saved);
      Claims(f, WithReply(s', ReplyToPost(Some(response))))
  {
    PostIsTruthful(s.cell, SubmissionFor(FilingInput(f, s.wf.value.scenario), CALLBACK_URL));
    var (s', response) := HandlePost(f, s, s.wf.value.scenario, saved);
    var reply := ReplyToPost(Some(response));
    if s'.cell.entry.None? && reply.Got? {
      assert reply.result.outcome.verdict == VerdictAmbiguous;
    }
  }

  lemma HandleClaims(f: FilingKey, s: State, saved: bool)
    requires Inv(f, s) && Addressable(f) && Asking(s) && s.cell.entry.None? && NothingClaimed(f, s)
    ensures Claims(f, HandleCurrent(f, s, saved))
  {
    var at := PositionOf(f, s.wf.value);
    assert !TakenForAccepted(at);
    match RequestOf(f, at)
    case Send(slot, t, detail) => CommandClaims(f, s, slot, t, detail);
    case PostSubmission => PostClaims(f, s, saved);
    case ReadStatus(id) => ReplyClaims(f, s, LookUp(f, s, ReadStatus(id)));
    case ReadFiling => ReplyClaims(f, s, LookUp(f, s, ReadFiling));
    case _ =>
  }

  lemma AddingClaims(f: FilingKey, s: State, m: Msg)
    requires NothingClaimed(f, s) && (m.CommandSent? ==> m.command.slot != SubmittedSlot)
    ensures NothingClaimed(f, AddMsg(s, m))
  {
    var s' := AddMsg(s, m);
    assert s'.commands == s.commands && s'.past == s.past && s'.wf == s.wf && s'.live == s.live;
  }

  lemma LoseClaims(f: FilingKey, s: State)
    requires Inv(f, s) && Asking(s) && NothingClaimed(f, s)
    ensures NothingClaimed(f, LoseCurrent(f, s))
  {
    var at := PositionOf(f, s.wf.value);
    assert !TakenForAccepted(at);
    match RequestOf(f, at)
    case Send(slot, t, detail) =>
      var m := CommandSent(CommandMsg(slot, t, detail));
      AddingClaims(f, s, m);
      ReplyClaims(f, AddMsg(s, m), Failing("transport failure"));
    case PostSubmission =>
      var m := PostSent(s.wf.value.scenario);
      AddingClaims(f, s, m);
      ReplyClaims(f, AddMsg(s, m), ReplyToPost(None));
    case Receive =>
    case Nothing =>
    case _ => ReplyClaims(f, s, Failing("transport failure"));
  }

  lemma DeliverClaims(f: FilingKey, s: State, m: Msg, saved: bool)
    requires UnderWay(s, m) && NothingClaimed(f, s)
    ensures NothingClaimed(f, HandleMsg(f, RemoveMsg(s, m), m, saved))
  {
    DeliveringKeepsPast(f, s, m, saved);
    if m.CommandSent? {
      OtherSlotsStay(f, RemoveMsg(s, m), m.command.slot, m.command.commandType, m.command.detail);
    }
  }

  lemma CheckpointClaims(f: FilingKey, s: State)
    requires NothingClaimed(f, s)
    ensures Claims(f, CheckpointCurrent(f, s))
  {
    if s.wf.Some? && s.live.Some? && s.live.value.reply.Some? && !CanRetry(f, s) {
      var w := s.wf.value;
      var r := ResultOf(s.live.value.reply.value);
      var w' := w.(history := w.history + [r]);
      assert w'.history[..|w'.history| - 1] == w.history;
      assert PositionOf(f, w') == Advance(f, w.polls, PositionOf(f, w), r);
      var s' := CheckpointCurrent(f, s);
      assert w' in s'.past;
      if TwiceAmbiguous(PositionOf(f, w), r) {
        assert Doubtful(f, w'.polls, w'.history);
      } else {
        assert NothingClaimed(f, s');
      }
    }
  }

  lemma RetryClaims(f: FilingKey, s: State)
    requires NothingClaimed(f, s)
    ensures NothingClaimed(f, RetryCurrent(f, s))
  {
  }

  lemma SettleClaims(f: FilingKey, s: State)
    requires NothingClaimed(f, s) && Asking(s) && s.wf.value in s.past
    ensures NothingClaimed(f, SettleCurrent(f, s))
  {
    var s' := SettleCurrent(f, s);
    assert s'.commands == s.commands && s'.commandsOut == s.commandsOut;
    assert forall w :: w in s'.past ==> w in s.past || PositionOf(f, w) == PositionOf(f, s.wf.value);
  }

  lemma LifecycleClaims(f: FilingKey, s: State, a: Action)
    requires NothingClaimed(f, s) && (s.wf.Some? ==> s.wf.value in s.past) && IsLifecycle(a)
    ensures NothingClaimed(f, Lifecycle(s, a))
  {
    var s' := Lifecycle(s, a);
    assert s'.commands == s.commands && s'.commandsOut == s.commandsOut;
    forall w | w in s'.past
      ensures !TakenForAccepted(PositionOf(f, w))
    {
      assert w in s.past || (a.Start? && w.history == [])
             || (w.history == s.wf.value.history && w.polls == s.wf.value.polls);
    }
  }

  lemma ReceiveClaims(f: FilingKey, s: State, received: Received)
    requires NothingClaimed(f, s) && Asking(s) && s.wf.value in s.past
    ensures ReceiveCurrent(f, s, received) == s
  {
    assert !TakenForAccepted(PositionOf(f, s.wf.value));
  }

  lemma RemovingClaims(f: FilingKey, s: State, m: Msg)
    requires NothingClaimed(f, s)
    ensures NothingClaimed(f, RemoveMsg(s, m))
  {
    var s' := RemoveMsg(s, m);
    assert s'.commands == s.commands && s'.past == s.past && s'.wf == s.wf && s'.live == s.live;
  }

  lemma NetworkClaims(f: FilingKey, s: State, a: Action)
    requires Addressable(f) && s.cell.entry.None? && NothingClaimed(f, s) && IsNetwork(a)
    ensures NothingClaimed(f, Network(f, s, a))
  {
    match a
    case Deliver(m, saved) => if UnderWay(s, m) { DeliverClaims(f, s, m, saved); }
    case Duplicate(m) => if UnderWay(s, m) { AddingClaims(f, s, m); }
    case Drop(m) => RemovingClaims(f, s, m);
    case Reconcile(_) =>
    case Misjudge(_, _) =>
  }

  lemma ServiceClaims(f: FilingKey, s: State, a: Action)
    requires NothingClaimed(f, s) && !IsExecution(a) && !IsLifecycle(a) && !IsNetwork(a)
    ensures NothingClaimed(f, AtServices(f, s, a))
  {
    var s' := AtServices(f, s, a);
    assert s'.commands == s.commands && s'.past == s.past && s'.wf == s.wf;
    assert s'.live == s.live && s'.commandsOut == s.commandsOut;
  }

  lemma ExecuteClaims(f: FilingKey, s: State, a: Action)
    requires Inv(f, s) && Addressable(f) && s.cell.entry.None? && NothingClaimed(f, s) && IsExecution(a)
    ensures Claims(f, Execute(f, s, a))
  {
    if a.Checkpoint? {
      CheckpointClaims(f, s);
    } else if a.Retry? {
      RetryClaims(f, s);
    } else if Asking(s) {
      match a
      case Handle(saved) => HandleClaims(f, s, saved);
      case Misread(_) =>
      case Lose => LoseClaims(f, s);
      case Recv(received) => ReceiveClaims(f, s, received);
      case Settle => SettleClaims(f, s);
    }
  }

  lemma StepClaims(f: FilingKey, s: State, a: Action)
    requires Inv(f, s) && Addressable(f) && s.cell.entry.None? && NothingClaimed(f, s)
    ensures Claims(f, Step(f, s, a))
  {
    if IsExecution(a) {
      ExecuteClaims(f, s, a);
    } else if IsLifecycle(a) {
      LifecycleClaims(f, s, a);
    } else if IsNetwork(a) {
      NetworkClaims(f, s, a);
    } else {
      ServiceClaims(f, s, a);
    }
  }

  lemma EntryStays(f: FilingKey, s: State, a: Action)
    requires Inv(f, s) && s.cell.entry.Some?
    ensures Step(f, s, a).cell.entry.Some?
  {
    StepIsPermitted(f, s, a);
    PermittedEffectsAreSpent(f, BusinessOf(s), BusinessOf(Step(f, s, a)));
  }

  /** An entry, once there, stays. */
  lemma {:induction false} ClaimsStay(f: FilingKey, s: State, actions: seq<Action>)
    requires Inv(f, s) && Addressable(f) && Claims(f, s)
    ensures Claims(f, RunAll(f, s, actions))
    decreases |actions|
  {
    if actions != [] {
      var s' := Step(f, s, actions[0]);
      StepKeepsInv(f, s, actions[0]);
      if s.cell.entry.Some? {
        EntryStays(f, s, actions[0]);
      } else if Doubted(f, s) {
        PastOnlyGrows(f, s, actions[0]);
        DoubtsStay(f, s, s');
      } else {
        StepClaims(f, s, actions[0]);
      }
      ClaimsStay(f, s', actions[1..]);
    }
  }

  /** A filing that was ever marked submitted is in the provider's ledger, unless some
      history of its workflow has an ambiguous answer to the resubmission. */
  lemma SubmittedMeansRecordedOrDoubtful(f: FilingKey, actions: seq<Action>)
    requires Addressable(f)
    ensures var s := Reached(f, actions);
      (s.row.Some? && s.row.value.state == Submitted) || SubmittedSlot in s.commands ==>
          s.cell.entry.Some? || Doubted(f, s)
  {
    ReachedIsOk(f, actions);
    assert NothingClaimed(f, NEW_FILING);
    ClaimsStay(f, NEW_FILING, actions);
  }

  // ---------- When it happens ----------

  /** The answer to the resubmission is lost, its save fails, or the provider times out before
      recording anything. */
  predicate Unanswered(s: State, a: Action)
    requires Asking(s)
  {
    || a.Lose?
    || (a.Handle? && !a.saved)
    || (a.Handle? && s.wf.value.scenario == ScenarioTimeoutLost && s.cell.timeout == 0)
  }

  /** The reply of this step is what makes the workflow go on as if the POST was accepted. */
  predicate GoesOn(f: FilingKey, s: State, a: Action, state: FilingState)
    requires Asking(s)
  {
    var s' := Step(f, s, a);
    && s'.cell.entry.None? && s'.wf == s.wf
    && s'.live.Some? && s'.live.value.reply.Some? && s'.live.value.reply.value.Got?
    && var r := s'.live.value.reply.value.result;
      && TwiceAmbiguous(AtResubmit(state), r)
      && Advance(f, s.wf.value.polls, AtResubmit(state), r)
           == AfterAcceptance(s.wf.value.polls, state, ProviderOperationID(f))
  }

  /** The answer to a POST for an absent operation is ambiguous exactly when it is not saved or
      times out, and only then is it neither recorded nor to be retried. */
  lemma AmbiguousExactlyWhen(f: FilingKey, s: State, scenario: Scenario, saved: bool)
    requires s.cell.entry.None?
    ensures var (s', response) := HandlePost(f, s, scenario, saved);
      var reply := ReplyToPost(Some(response));
      && (s'.cell.entry.None? && reply.Got? <==> !saved || (scenario == ScenarioTimeoutLost && s.cell.timeout == 0))
      && (s'.cell.entry.None? && reply.Got? ==> TwiceAmbiguous(AtResubmit(Submitting), reply.result))
      && s'.wf == s.wf && s'.live == s.live
  {
    PostIsTruthful(s.cell, SubmissionFor(FilingInput(f, scenario), CALLBACK_URL));
  }

  lemma HandledGoesOnExactly(f: FilingKey, s: State, saved: bool, state: FilingState)
    requires Asking(s) && s.cell.entry.None? && PositionOf(f, s.wf.value) == AtResubmit(state)
    ensures GoesOn(f, s, Handle(saved), state) <==> Unanswered(s, Handle(saved))
  {
    AmbiguousExactlyWhen(f, s, s.wf.value.scenario, saved);
    var (s', response) := HandlePost(f, s, s.wf.value.scenario, saved);
    assert Step(f, s, Handle(saved)) == WithReply(s', ReplyToPost(Some(response)));
  }

  /** At the resubmission, from either local state, the workflow goes on to the mark or to the
      wait with nothing recorded exactly when the POST goes unanswered. */
  lemma GoesOnExactlyWhenUnanswered(f: FilingKey, s: State, a: Action, state: FilingState)
    requires Asking(s) && s.cell.entry.None? && PositionOf(f, s.wf.value) == AtResubmit(state)
    requires a.Handle? || a.Lose?
    ensures GoesOn(f, s, a, state) <==> Unanswered(s, a)
  {
    if a.Handle? {
      HandledGoesOnExactly(f, s, a.saved, state);
    } else {
      assert LoseCurrent(f, s).live.value.reply == Some(ReplyToPost(None));
    }
  }

  /** The filing is marked submitted and the provider holds nothing. */
  predicate SubmittedInVain(s: State) {
    s.row.Some? && s.row.value.state == Submitted && s.cell.entry.None?
  }

  lemma ResubmissionKeepsRow(f: FilingKey, s: State, a: Action, state: FilingState)
    requires Asking(s) && PositionOf(f, s.wf.value) == AtResubmit(state) && (a.Handle? || a.Lose?)
    ensures var s' := Step(f, s, a);
      && s'.row == s.row && s'.wf == s.wf
      && s'.live.Some? && s'.live.value.tries == s.live.value.tries && s'.live.value.reply.Some?
  {
  }

  lemma UnansweredIsInVain(f: FilingKey, s: State, a: Action, state: FilingState, row: FilingRow, polls: nat)
    requires Reaches(f, s, AtResubmit(state), row, polls)
    requires row.state == Submitting && state != Submitted
    requires (a.Handle? || a.Lose?) && GoesOn(f, s, a, state)
    ensures SubmittedInVain(Step(f, Exchanged(f, s, a), Handle(true)))
  {
    ResubmissionKeepsRow(f, s, a, state);
    Exchange(f, s, a, Step(f, s, a).live.value.reply.value.result);
    ExchangeKeepsInv(f, s, a);
    Marked(f, Exchanged(f, s, a), ProviderOperationID(f), row, polls);
  }

  /** A step that failed is retried or ends the workflow; neither touches the filing. */
  lemma FailureStopsHere(f: FilingKey, s: State, state: FilingState)
    requires s.wf.Some? && PositionOf(f, s.wf.value) == AtResubmit(state)
    requires s.live.Some? && s.live.value.reply.Some? && s.live.value.reply.value.Failing?
    ensures Step(f, Step(f, s, Checkpoint), Handle(true)).row == s.row
  {
    var s1 := Step(f, s, Checkpoint);
    if CanRetry(f, s) {
      assert s1 == s;
    } else {
      var w := s.wf.value;
      var r := StepFailed(s.live.value.reply.value.message);
      assert (w.history + [r])[..|w.history|] == w.history;
      assert PositionOf(f, s1.wf.value) == Failed(r.message);
    }
  }

  lemma UnrecordedMeansFailing(f: FilingKey, s: State, a: Action, state: FilingState)
    requires Asking(s) && s.cell.entry.None? && PositionOf(f, s.wf.value) == AtResubmit(state)
    requires (a.Handle? || a.Lose?) && Step(f, s, a).cell.entry.None? && !GoesOn(f, s, a, state)
    ensures Step(f, s, a).live.value.reply.value.Failing?
  {
    PostIsTruthful(s.cell, SubmissionFor(FilingInput(f, s.wf.value.scenario), CALLBACK_URL));
    ResubmissionKeepsRow(f, s, a, state);
  }

  lemma AnsweredIsNotInVain(f: FilingKey, s: State, a: Action, state: FilingState, row: FilingRow, polls: nat)
    requires Reaches(f, s, AtResubmit(state), row, polls)
    requires row.state == Submitting && (a.Handle? || a.Lose?) && !GoesOn(f, s, a, state)
    ensures !SubmittedInVain(Step(f, Exchanged(f, s, a), Handle(true)))
  {
    var s1 := Step(f, s, a);
    ResubmissionKeepsRow(f, s, a, state);
    StepKeepsInv(f, s, a);
    if s1.cell.entry.Some? {
      EntryStays(f, s1, Checkpoint);
      ExchangeKeepsInv(f, s, a);
      EntryStays(f, Exchanged(f, s, a), Handle(true));
    } else {
      UnrecordedMeansFailing(f, s, a, state);
      FailureStopsHere(f, s1, state);
    }
  }

  /** For every run that has come to the resubmission of a filing still submitting: its next
      exchange leads to a submitted filing that the provider knows nothing of exactly when the
      POST goes unanswered, which a caller can tell from the request and the provider's count. */
  lemma SubmittedInVainExactlyWhen(f: FilingKey, actions: seq<Action>, a: Action, state: FilingState)
    requires var s := Reached(f, actions);
      && Asking(s) && PositionOf(f, s.wf.value) == AtResubmit(state) && state != Submitted
      && s.cell.entry.None? && s.row.Some? && s.row.value.state == Submitting
    requires a.Handle? || a.Lose?
    ensures SubmittedInVain(Reached(f, actions + [a, Checkpoint, Handle(true)])) <==> Unanswered(Reached(f, actions), a)
  {
    var s := Reached(f, actions);
    ReachedIsOk(f, actions);
    GoesOnExactlyWhenUnanswered(f, s, a, state);
    assert [a, Checkpoint, Handle(true)] == [a, Checkpoint] + [Handle(true)];
    RunConcat(f, NEW_FILING, actions, [a, Checkpoint] + [Handle(true)]);
    RunExchange(f, s, a, [Handle(true)]);
    OneAction(f, Exchanged(f, s, a), Handle(true));
    if Unanswered(s, a) {
      UnansweredIsInVain(f, s, a, state, s.row.value, s.wf.value.polls);
    } else {
      AnsweredIsNotInVain(f, s, a, state, s.row.value, s.wf.value.polls);
    }
  }

  /** A filing that was submitted in vain before stays so exactly when this POST, too, is not
      recorded: it goes unanswered, or is refused by a fault scenario. */
  lemma StaysInVainExactlyWhen(f: FilingKey, s: State, a: Action, state: FilingState)
    requires Asking(s) && PositionOf(f, s.wf.value) == AtResubmit(state) && SubmittedInVain(s)
    requires a.Handle? || a.Lose?
    ensures SubmittedInVain(Step(f, s, a)) <==>
      Unanswered(s, a) || Refusal(s.cell, SubmissionFor(FilingInput(f, s.wf.value.scenario),
          CALLBACK_URL)).response.Some?
  {
    ResubmissionKeepsRow(f, s, a, state);
  }

  // ---------- A run ----------

  /** The part of the run after the filing was validated and its intent declared. */
  function LosingBoth(): seq<Action> {
    [Handle(true), Checkpoint]
    + ([Lose, Checkpoint] + ([Handle(true), Checkpoint] + ([Lose, Checkpoint] + [Handle(true)])))
  }

  function DoubtfulRun(): seq<Action> {
    [Seed(ScenarioOK), Start(ScenarioOK, 1), Begin]
    + ([Handle(true), Checkpoint] + ([Handle(true), Checkpoint] + LosingBoth()))
  }

  lemma LosingBothMarks(f: FilingKey, s: State, row: FilingRow)
    requires Addressable(f) && Reaches(f, s, AtFindExisting(Submitting), row, 1) && row.state == Submitting
    ensures SubmittedInVain(RunAll(f, s, LosingBoth()))
  {
    LookedUp(f, s, AtFindExisting(Submitting), row, 1);
    var s1 := Exchanged(f, s, Handle(true));
    LostPost(f, s1, AtSubmit(Submitting), row, 1);
    var s2 := Exchanged(f, s1, Lose);
    LookedUp(f, s2, AtResolve(Submitting), row, 1);
    var s3 := Exchanged(f, s2, Handle(true));
    LostPost(f, s3, AtResubmit(Submitting), row, 1);
    var s4 := Exchanged(f, s3, Lose);
    Marked(f, s4, ProviderOperationID(f), row, 1);
    var from3 := [Lose, Checkpoint] + [Handle(true)];
    var from2 := [Handle(true), Checkpoint] + from3;
    RunExchange(f, s, Handle(true), [Lose, Checkpoint] + from2);
    RunExchange(f, s1, Lose, from2);
    RunExchange(f, s2, Handle(true), from3);
    RunExchange(f, s3, Lose, [Handle(true)]);
    OneAction(f, s4, Handle(true));
  }

  /** And it does happen: when both POSTs are lost, the filing is submitted and the provider
      knows nothing of it. */
  lemma SubmittedWithoutEffect(f: FilingKey)
    requires Addressable(f)
    ensures SubmittedInVain(Reached(f, DoubtfulRun()))
  {
    var row := FilingRow(ScenarioOK, Ready, None);
    var start := [Seed(ScenarioOK), Start(ScenarioOK, 1), Begin];
    Begun(f, NEW_FILING);
    var s := RunAll(f, NEW_FILING, start);
    Validated(f, s, row, 1);
    var s1 := Exchanged(f, s, Handle(true));
    Prepared(f, s1, row, 1);
    var s2 := Exchanged(f, s1, Handle(true));
    LosingBothMarks(f, s2, Prepare(f, row));
    var rest := [Handle(true), Checkpoint] + LosingBoth();
    RunConcat(f, NEW_FILING, start, [Handle(true), Checkpoint] + rest);
    RunExchange(f, s, Handle(true), rest);
    RunExchange(f, s1, Handle(true), LosingBoth());
  }
}
