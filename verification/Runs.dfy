/** Short runs of one filing, exchange by exchange, for results that say what can be reached. */
module Runs {
  import opened Domain
  import opened CommandStore
  import opened ProviderLedger
  import opened Filing
  import opened Protocol
  import opened ProtocolInvariant
  import opened Guarantees

  // ---------- Putting runs together ----------

  lemma OneAction(f: FilingKey, s: State, a: Action)
    ensures RunAll(f, s, [a]) == Step(f, s, a)
  {
    assert [a][1..] == [];
  }

  lemma {:induction false} RunConcat(f: FilingKey, s: State, a: seq<Action>, b: seq<Action>)
    ensures RunAll(f, s, a + b) == RunAll(f, RunAll(f, s, a), b)
    decreases |a|
  {
    if a == [] {
      assert a + b == b;
    } else {
      assert (a + b)[0] == a[0] && (a + b)[1..] == a[1..] + b;
      RunConcat(f, Step(f, s, a[0]), a[1..], b);
    }
  }

  lemma TwoActions(f: FilingKey, s: State, a: Action, b: Action)
    ensures RunAll(f, s, [a, b]) == Step(f, Step(f, s, a), b)
  {
    assert [a, b] == [a] + [b];
    RunConcat(f, s, [a], [b]);
    OneAction(f, s, a);
    OneAction(f, Step(f, s, a), b);
  }

  lemma ThreeActions(f: FilingKey, s: State, a: Action, b: Action, c: Action)
    ensures RunAll(f, s, [a, b, c]) == Step(f, Step(f, Step(f, s, a), b), c)
  {
    assert [a, b, c] == [a] + [b, c];
    RunConcat(f, s, [a], [b, c]);
    OneAction(f, s, a);
    TwoActions(f, Step(f, s, a), b, c);
  }

  /** One exchange: a request with its answer, and the checkpoint. */
  function Exchanged(f: FilingKey, s: State, a: Action): State {
    Step(f, Step(f, s, a), Checkpoint)
  }

  lemma RunExchange(f: FilingKey, s: State, a: Action, rest: seq<Action>)
    ensures RunAll(f, s, [a, Checkpoint] + rest) == RunAll(f, Exchanged(f, s, a), rest)
  {
    RunConcat(f, s, [a, Checkpoint], rest);
    TwoActions(f, s, a, Checkpoint);
  }

  lemma Exchange(f: FilingKey, s: State, a: Action, r: StepResult)
    requires Asking(s)
    requires var s' := Step(f, s, a);
      s'.wf == s.wf && s'.live.Some? && s'.live.value.reply == Some(Got(r))
    ensures var s' := Step(f, s, a); var s'' := Exchanged(f, s, a);
      && SameServices(s', s'') && Asking(s'') && s''.live == Some(Live(0, None))
      && s''.wf.value.polls == s.wf.value.polls && s''.wf.value.scenario == s.wf.value.scenario
      && PositionOf(f, s''.wf.value) == Advance(f, s.wf.value.polls, PositionOf(f, s.wf.value), r)
  {
    var w := s.wf.value;
    assert (w.history + [r])[..|w.history|] == w.history;
  }

  /** One round of the wait that brings nothing: no message, and a lookup. */
  function OneRound(): seq<Action> {
    [Recv(Timeout), Checkpoint] + [Handle(true), Checkpoint]
  }

  /** A stretch of actions, repeated until a counter is full. */
  lemma {:induction false} Repeats(f: FilingKey, s: State, round: seq<Action>, i: nat, n: nat,
          holds: (State, nat) -> bool, allowed: Action -> bool)
    returns (actions: seq<Action>, s': State)
    requires holds(s, i) && i <= n && forall a :: a in round ==> allowed(a)
    requires forall t: State, k: nat :: holds(t, k) && k < n ==> holds(RunAll(f, t, round), k + 1)
    ensures s' == RunAll(f, s, actions) && holds(s', n) && forall a :: a in actions ==> allowed(a)
    decreases n - i
  {
    if i == n {
      actions, s' := [], s;
    } else {
      actions, s' := Repeats(f, RunAll(f, s, round), round, i + 1, n, holds, allowed);
      RunConcat(f, s, round, actions);
      actions := round + actions;
    }
  }

  // ---------- A silent provider ----------

  /** The workflow asks at `at` with the filing as given and nothing at the provider. */
  predicate Stands(f: FilingKey, s: State, at: Position, row: FilingRow, polls: nat) {
    && Asking(s) && PositionOf(f, s.wf.value) == at && s.wf.value.polls == polls
    && s.row == Some(row) && s.cell.entry.None?
  }

  ghost predicate Reaches(f: FilingKey, s: State, at: Position, row: FilingRow, polls: nat) {
    Inv(f, s) && Stands(f, s, at, row, polls)
  }

  lemma ExchangeKeepsInv(f: FilingKey, s: State, a: Action)
    requires Inv(f, s)
    ensures Inv(f, Exchanged(f, s, a))
  {
    StepKeepsInv(f, s, a);
    StepKeepsInv(f, Step(f, s, a), Checkpoint);
  }

  lemma Validated(f: FilingKey, s: State, row: FilingRow, polls: nat)
    requires Addressable(f) && Reaches(f, s, AtValidate, row, polls) && !Terminal(row.state)
    ensures Reaches(f, Exchanged(f, s, Handle(true)),
                    if row.state == Ready then AtPrepare else AtFindExisting(row.state), row, polls)
  {
    Exchange(f, s, Handle(true), FilingRead(row));
    ExchangeKeepsInv(f, s, Handle(true));
  }

  /** The filing with its intent declared. */
  function Prepare(f: FilingKey, row: FilingRow): FilingRow {
    row.(state := Submitting, providerOperation := Some(ProviderOperationID(f)))
  }

  lemma IntentApplies(f: FilingKey, s: State, row: FilingRow)
    requires Inv(f, s) && s.row == Some(row) && row.state == Ready
    ensures var (s', reply) := HandleCommand(f, s, IntentSlot, PrepareFilingSubmission, "");
      reply.Done? && reply.result.newState == Submitting && s'.row == Some(Prepare(f, row))
  {
    assert ProviderOperationID(f)[0] == 'f' && CommandKey(f, IntentSlot)[0] == 'f';
  }

  lemma Prepared(f: FilingKey, s: State, row: FilingRow, polls: nat)
    requires Reaches(f, s, AtPrepare, row, polls) && row.state == Ready
    ensures Reaches(f, Exchanged(f, s, Handle(true)), AtFindExisting(Submitting), Prepare(f, row), polls)
  {
    IntentApplies(f, s, row);
    var (_, reply) := HandleCommand(f, s, IntentSlot, PrepareFilingSubmission, "");
    Exchange(f, s, Handle(true), CommandDone(reply.result));
    ExchangeKeepsInv(f, s, Handle(true));
  }

  lemma LookupFindsNothing(f: FilingKey, s: State)
    requires Addressable(f) && Asking(s) && RequestOf(f, PositionOf(f, s.wf.value)).ReadStatus? && s.cell.entry.None?
    ensures Step(f, s, Handle(true)) == WithReply(s, Got(StatusRead(NotFound)))
  {
  }

  lemma LookupStands(f: FilingKey, s: State, at: Position, row: FilingRow, polls: nat)
    requires at.AtFindExisting? || at.AtResolve?
    requires Addressable(f) && Stands(f, s, at, row, polls)
    ensures Stands(f, Exchanged(f, s, Handle(true)),
                   if at.AtFindExisting? then AtSubmit(at.state) else AtResubmit(at.state), row, polls)
  {
    LookupFindsNothing(f, s);
    Exchange(f, s, Handle(true), StatusRead(NotFound));
  }

  lemma LookedUp(f: FilingKey, s: State, at: Position, row: FilingRow, polls: nat)
    requires at.AtFindExisting? || at.AtResolve?
    requires Addressable(f) && Reaches(f, s, at, row, polls)
    ensures Reaches(f, Exchanged(f, s, Handle(true)),
                    if at.AtFindExisting? then AtSubmit(at.state) else AtResubmit(at.state), row, polls)
  {
    LookupStands(f, s, at, row, polls);
    ExchangeKeepsInv(f, s, Handle(true));
  }

  lemma LossStands(f: FilingKey, s: State, at: Position, row: FilingRow, polls: nat)
    requires at.AtSubmit? || at.AtResubmit?
    requires Stands(f, s, at, row, polls)
    ensures Stands(f, Exchanged(f, s, Lose),
                   if at.AtSubmit? then AtResolve(at.state)
                   else AfterAcceptance(polls, at.state, ProviderOperationID(f)),
                   row, polls)
  {
    Exchange(f, s, Lose, SubmitDone(SubmitOutcome(VerdictAmbiguous, "transport failure")));
  }

  lemma LostPost(f: FilingKey, s: State, at: Position, row: FilingRow, polls: nat)
    requires at.AtSubmit? || at.AtResubmit?
    requires Reaches(f, s, at, row, polls)
    ensures Reaches(f, Exchanged(f, s, Lose),
                    if at.AtSubmit? then AtResolve(at.state)
                    else AfterAcceptance(polls, at.state, ProviderOperationID(f)),
                    row, polls)
  {
    LossStands(f, s, at, row, polls);
    ExchangeKeepsInv(f, s, Lose);
  }

  lemma MarkApplies(f: FilingKey, s: State, row: FilingRow)
    requires Inv(f, s) && s.row == Some(row) && row.state == Submitting
    ensures var (s', reply) := HandleCommand(f, s, SubmittedSlot, MarkFilingSubmitted, "");
      reply.Done? && s'.row == Some(row.(state := Submitted))
  {
    assert CommandKey(f, SubmittedSlot)[0] == 'f';
  }

  lemma Marked(f: FilingKey, s: State, id: string, row: FilingRow, polls: nat)
    requires Reaches(f, s, AtMarkSubmitted(id), row, polls) && row.state == Submitting
    ensures Step(f, s, Handle(true)).row == Some(row.(state := Submitted))
    ensures Step(f, s, Handle(true)).cell.entry.None?
    ensures Reaches(f, Exchanged(f, s, Handle(true)), Wait(polls, 0, id), row.(state := Submitted), polls)
  {
    MarkApplies(f, s, row);
    var (_, reply) := HandleCommand(f, s, SubmittedSlot, MarkFilingSubmitted, "");
    Exchange(f, s, Handle(true), CommandDone(reply.result));
    ExchangeKeepsInv(f, s, Handle(true));
  }

  lemma TimedOut(f: FilingKey, s: State, poll: nat, id: string, row: FilingRow, polls: nat)
    requires Reaches(f, s, AtRecv(poll, id), row, polls)
    ensures Reaches(f, Exchanged(f, s, Recv(Timeout)), AtPollStatus(poll, id), row, polls)
  {
    Exchange(f, s, Recv(Timeout), RecvTimedOut);
    ExchangeKeepsInv(f, s, Recv(Timeout));
  }

  lemma PollStands(f: FilingKey, s: State, poll: nat, id: string, row: FilingRow, polls: nat)
    requires Addressable(f) && Stands(f, s, AtPollStatus(poll, id), row, polls)
    ensures Stands(f, Exchanged(f, s, Handle(true)), Wait(polls, poll + 1, id), row, polls)
  {
    LookupFindsNothing(f, s);
    Exchange(f, s, Handle(true), StatusRead(NotFound));
  }

  lemma Polled(f: FilingKey, s: State, poll: nat, id: string, row: FilingRow, polls: nat)
    requires Addressable(f) && Reaches(f, s, AtPollStatus(poll, id), row, polls)
    ensures Reaches(f, Exchanged(f, s, Handle(true)), Wait(polls, poll + 1, id), row, polls)
  {
    PollStands(f, s, poll, id, row, polls);
    ExchangeKeepsInv(f, s, Handle(true));
  }

  lemma ReviewApplies(f: FilingKey, s: State, row: FilingRow, detail: string)
    requires Inv(f, s) && s.row == Some(row) && (row.state == Submitting || row.state == Submitted)
    ensures HandleCommand(f, s, ReviewSlot, MarkFilingNeedsReview, detail).0.row == Some(row.(state := NeedsReview))
  {
    assert CommandKey(f, ReviewSlot)[0] == 'f';
  }

  lemma Reviewed(f: FilingKey, s: State, detail: string, next: AfterRecord, row: FilingRow, polls: nat)
    requires Reaches(f, s, AtRecord(NeedsReview, detail, next), row, polls)
    requires row.state == Submitting || row.state == Submitted
    ensures Step(f, s, Handle(true)).row == Some(row.(state := NeedsReview))
  {
    ReviewApplies(f, s, row, detail);
  }

  /** A fresh workflow, about to read its filing. */
  lemma FreshWorkflow(f: FilingKey, s: State, row: FilingRow, scenario: Scenario, polls: nat)
    requires Inv(f, s) && s.row == Some(row) && s.cell.entry.None? && s.wf.None? && s.live.None?
    ensures Reaches(f, Step(f, Step(f, s, Start(scenario, polls)), Begin), AtValidate, row, polls)
  {
    StepKeepsInv(f, s, Start(scenario, polls));
    StepKeepsInv(f, Step(f, s, Start(scenario, polls)), Begin);
  }

  /** A filing just seeded and started. */
  lemma Begun(f: FilingKey, s: State)
    requires s == NEW_FILING
    ensures Reaches(f, RunAll(f, s, [Seed(ScenarioOK), Start(ScenarioOK, 1), Begin]), AtValidate,
                    FilingRow(ScenarioOK, Ready, None), 1)
  {
    var s1 := Step(f, s, Seed(ScenarioOK));
    ReachedIsOk(f, []);
    StepKeepsInv(f, s, Seed(ScenarioOK));
    FreshWorkflow(f, s1, FilingRow(ScenarioOK, Ready, None), ScenarioOK, 1);
    ThreeActions(f, s, Seed(ScenarioOK), Start(ScenarioOK, 1), Begin);
  }
}
