/** The two repair loops: the operator's reconcile command and the scheduled workflow. Each
    is written in its own branch order and proved to be a pass of one policy; what a pass
    repairs, reports and leaves alone is proved of that policy. */
module Reconcile {
  import opened Domain
  import opened CommandStore
  import opened ProviderLedger
  import opened Filing

  datatype DbosStatus = Pending | Enqueued | Delayed | Success | Error | Cancelled | UnknownStatus

  datatype RunInfo = RunInfo(status: DbosStatus, updatedAt: int, delayUntil: int, input: FilingInput)

  /** One row of the filing list a reconciler works through. */
  datatype Due = Due(filing: FilingKey, scenario: Scenario, state: FilingState)

  datatype World = World(store: Store, runs: map<string, RunInfo>)

  type Ledgers = map<string, Entry>

  datatype Verdict = Healthy | Escalate | Finalize(outcome: Outcome) | Recreate | StartMissing

  datatype Reconciler = Operator | Scheduled

  /** What each reconciler writes into the outcome command. */
  function DetailOf(who: Reconciler): string {
    match who
    case Operator => "resolved from completed provider operation"
    case Scheduled => "resolved by scheduled reconciliation"
  }

  /** How a pass is run: whether it acts, who runs it, its clock and its stale bound. */
  datatype Mode = Mode(apply: bool, who: Reconciler, now: int, stale: int)

  /** Somebody else who starts the same workflow first; the runtime may or may not say so. */
  datatype Rival = Rival(input: FilingInput, signalled: bool)

  type Rivals = map<string, Rival>

  // ---------- The policy ----------

  predicate Reconcilable(s: FilingState) {
    s == Ready || s == Submitting || s == Submitted || s == NeedsReview
  }

  /** The final outcome the provider reports, if it has one. */
  function Resolved(status: StatusResponse): Option<Outcome> {
    if status.Found? && status.status == Completed && status.outcome != NoOutcome then Some(status.outcome) else None
  }

  /** What a pass may conclude from a lookup: an outcome exactly when the provider's entry for
      the operation is completed with that outcome. */
  lemma ResolvedExactlyWhenCompleted(ledger: Ledgers, id: string, o: Outcome)
    ensures Resolved(StatusOf(Lookup(ledger, id), id)) == Some(o) <==>
              id in ledger && ledger[id].status == Completed && ledger[id].outcome == o && o != NoOutcome
  {
  }

  function FinalizeOrEscalate(status: StatusResponse): Verdict {
    if Resolved(status).Some? then Finalize(Resolved(status).value) else Escalate
  }

  function Judge(f: Due, run: Option<RunInfo>, status: StatusResponse, now: int, stale: int): Verdict {
    if f.state == NeedsReview then FinalizeOrEscalate(status)
    else if run.None? then StartMissing
    else
      match run.value.status
      case Pending => if now - run.value.updatedAt >= stale then Escalate else Healthy
      case Enqueued => if now - run.value.updatedAt >= stale then Escalate else Healthy
      case Delayed => if now >= run.value.delayUntil + stale then Escalate else Healthy
      case Success => FinalizeOrEscalate(status)
      case Error => Recreate
      case Cancelled => Escalate
      case UnknownStatus => Escalate
  }

  function JudgeIn(w: World, ledger: Ledgers, f: Due, m: Mode): Verdict {
    var id := WorkflowID(f.filing);
    var operation := ProviderOperationID(f.filing);
    Judge(f, Lookup(w.runs, id), StatusOf(Lookup(ledger, operation), operation), m.now, m.stale)
  }

  // ---------- Acting on a verdict ----------

  datatype Enacted = Enacted(world: World, lost: bool, failed: bool)

  function FreshRun(input: FilingInput, now: int): RunInfo {
    RunInfo(Enqueued, now, now, input)
  }

  /** The input a started run holds: the filing and scenario listed, or a rival's. */
  function InputStarted(f: Due, rivals: Rivals): FilingInput {
    var id := WorkflowID(f.filing);
    if id in rivals then rivals[id].input else FilingInput(f.filing, f.scenario)
  }

  /** Somebody else starts the run first, and the runtime says so. */
  predicate Beaten(f: Due, rivals: Rivals) {
    WorkflowID(f.filing) in rivals && rivals[WorkflowID(f.filing)].signalled
  }

  /** Starting a run under an ID that is free, unless a rival takes it first. */
  function StartRun(w: World, f: Due, m: Mode, rivals: Rivals): Enacted {
    var id := WorkflowID(f.filing);
    var beaten := Beaten(f, rivals);
    Enacted(w.(runs := w.runs[id := FreshRun(InputStarted(f, rivals), m.now)]), beaten, beaten && m.who == Operator)
  }

  function FinalCommand(f: FilingKey, o: Outcome, detail: string): CommandRequest {
    CommandFor(f, OutcomeSlot, OutcomeCommand(MapOutcome(o)), detail)
  }

  function Enact(w: World, f: Due, v: Verdict, m: Mode, rivals: Rivals): Enacted {
    match v
    case Healthy => Enacted(w, false, false)
    case Escalate => Enacted(w, false, false)
    case Finalize(o) =>
      var (store, reply) := Apply(w.store, FinalCommand(f.filing, o, DetailOf(m.who)));
      Enacted(w.(store := store), false, !reply.Done?)
    case Recreate => StartRun(w.(runs := w.runs - {WorkflowID(f.filing)}), f, m, rivals)
    case StartMissing => StartRun(w, f, m, rivals)
  }

  // ---------- A pass ----------

  /** Verdicts of the filings dealt with, start races lost, and whether the pass broke off. */
  datatype Report = Report(world: World, verdicts: seq<Verdict>, lost: nat, failed: bool)

  function DealWith(rep: Report, ledger: Ledgers, f: Due, m: Mode, rivals: Rivals): Report {
    if rep.failed then rep
    else
      var v := JudgeIn(rep.world, ledger, f, m);
      if !m.apply then rep.(verdicts := rep.verdicts + [v])
      else
        var e := Enact(rep.world, f, v, m, rivals);
        if e.failed then rep.(world := e.world, failed := true)
        else Report(e.world, rep.verdicts + [v], rep.lost + (if e.lost then 1 else 0), false)
  }

  function Pass(w: World, ledger: Ledgers, list: seq<Due>, m: Mode, rivals: Rivals): Report
    decreases |list|
  {
    if list == [] then Report(w, [], 0, false)
    else DealWith(Pass(w, ledger, list[..|list| - 1], m, rivals), ledger, list[|list| - 1], m, rivals)
  }

  lemma PassStep(w: World, ledger: Ledgers, list: seq<Due>, m: Mode, rivals: Rivals, i: nat)
    requires i < |list|
    ensures Pass(w, ledger, list[..i + 1], m, rivals) ==
        DealWith(Pass(w, ledger, list[..i], m, rivals), ledger, list[i], m, rivals)
  {
    assert list[..i + 1][..i] == list[..i];
  }

  ghost predicate Distinct(list: seq<Due>) {
    forall i, j :: 0 <= i < j < |list| ==> list[i].filing != list[j].filing
  }

  // ---------- The dry run ----------

  /** Acting on one filing never touches another one's run. */
  lemma EnactIsLocal(w: World, f: Due, v: Verdict, m: Mode, rivals: Rivals, g: FilingKey)
    requires g != f.filing
    ensures Lookup(Enact(w, f, v, m, rivals).world.runs, WorkflowID(g)) == Lookup(w.runs, WorkflowID(g))
  {
    if WorkflowID(g) == WorkflowID(f.filing) { WorkflowIDsNeverCollide(g, f.filing); }
  }

  lemma {:induction false} OthersAreUntouched(w: World, ledger: Ledgers, list: seq<Due>, m: Mode,
          rivals: Rivals, g: FilingKey)
    requires forall f :: f in list ==> f.filing != g
    ensures Lookup(Pass(w, ledger, list, m, rivals).world.runs, WorkflowID(g)) == Lookup(w.runs, WorkflowID(g))
    decreases |list|
  {
    if list != [] {
      var n := |list| - 1;
      OthersAreUntouched(w, ledger, list[..n], m, rivals, g);
      var rep := Pass(w, ledger, list[..n], m, rivals);
      EnactIsLocal(rep.world, list[n], JudgeIn(rep.world, ledger, list[n], m), m, rivals, g);
    }
  }

  /** A verdict depends on the run, not on whether the pass acts. */
  lemma JudgesAlike(w: World, w': World, ledger: Ledgers, f: Due, m: Mode, apply: bool)
    requires Lookup(w.runs, WorkflowID(f.filing)) == Lookup(w'.runs, WorkflowID(f.filing))
    ensures JudgeIn(w', ledger, f, m.(apply := apply)) == JudgeIn(w, ledger, f, m)
  {
  }

  /** How the report of an applying pass goes along with that of a dry run. */
  predicate Matches(dry: Report, wet: Report) {
    && !dry.failed
    && wet.verdicts <= dry.verdicts
    && (!wet.failed ==> wet.verdicts == dry.verdicts)
  }

  lemma MatchesOnward(dry: Report, wet: Report, ledger: Ledgers, f: Due, m: Mode, rivals: Rivals)
    requires Matches(dry, wet)
    requires Lookup(dry.world.runs, WorkflowID(f.filing)) == Lookup(wet.world.runs, WorkflowID(f.filing))
    ensures var dry', wet' := DealWith(dry, ledger, f, m.(apply := false), rivals),
        DealWith(wet, ledger, f, m.(apply := true), rivals);
      && Matches(dry', wet')
      && dry' == dry.(verdicts := dry.verdicts + [JudgeIn(dry.world, ledger, f, m)])
  {
    JudgesAlike(dry.world, dry.world, ledger, f, m, false);
    JudgesAlike(dry.world, wet.world, ledger, f, m, true);
  }

  lemma LastIsUntouched(w: World, ledger: Ledgers, list: seq<Due>, m: Mode, rivals: Rivals)
    requires Distinct(list) && list != []
    ensures var n := |list| - 1; var id := WorkflowID(list[n].filing);
      Lookup(Pass(w, ledger, list[..n], m, rivals).world.runs, id) == Lookup(w.runs, id)
  {
    var n := |list| - 1;
    OthersAreUntouched(w, ledger, list[..n], m, rivals, list[n].filing);
  }

  /** The verdicts of a dry run are those of the world it looks at. */
  ghost predicate Verdicts(w: World, ledger: Ledgers, list: seq<Due>, m: Mode, verdicts: seq<Verdict>) {
    |verdicts| == |list| && forall i :: 0 <= i < |list| ==> verdicts[i] == JudgeIn(w, ledger, list[i], m)
  }

  lemma VerdictsExtend(w: World, ledger: Ledgers, list: seq<Due>, m: Mode, verdicts: seq<Verdict>)
    requires list != [] && Verdicts(w, ledger, list[..|list| - 1], m, verdicts)
    ensures Verdicts(w, ledger, list, m, verdicts + [JudgeIn(w, ledger, list[|list| - 1], m)])
  {
    assert forall i :: 0 <= i < |list| - 1 ==> list[..|list| - 1][i] == list[i];
  }

  /** A report-only pass changes nothing, and its verdicts are exactly those that an applying
      pass acts on: all of them if it completes, the first ones if it breaks off. */
  lemma {:induction false} DryRunIsFaithful(w: World, ledger: Ledgers, list: seq<Due>, m: Mode, rivals: Rivals)
    requires Distinct(list)
    ensures var dry, wet := Pass(w, ledger, list, m.(apply := false), rivals),
        Pass(w, ledger, list, m.(apply := true), rivals);
      && dry.world == w && Verdicts(w, ledger, list, m, dry.verdicts)
      && Matches(dry, wet)
    decreases |list|
  {
    if list != [] {
      var n := |list| - 1;
      DryRunIsFaithful(w, ledger, list[..n], m, rivals);
      LastIsUntouched(w, ledger, list, m.(apply := true), rivals);
      var dry, wet := Pass(w, ledger, list[..n], m.(apply := false), rivals),
          Pass(w, ledger, list[..n], m.(apply := true), rivals);
      MatchesOnward(dry, wet, ledger, list[n], m, rivals);
      VerdictsExtend(w, ledger, list, m, dry.verdicts);
    }
  }

  // ---------- From a consistent world ----------

  predicate ConsistentAt(store: Store, ledger: Ledgers, f: FilingKey)
    requires f in store.filings
  {
    var state := store.filings[f].state;
    && (!Terminal(state) ==> CommandKey(f, OutcomeSlot) !in store.commands)
    && (Resolved(StatusOf(Lookup(ledger, ProviderOperationID(f)), ProviderOperationID(f))).Some? ==> state != Ready)
  }

  /** What reachable systems guarantee: the outcome key of an open filing is free, and a
      completed operation is past its filing's intent. */
  ghost predicate Consistent(w: World, ledger: Ledgers) {
    forall f :: f in w.store.filings ==> ConsistentAt(w.store, ledger, f)
  }

  predicate Current(f: Due, store: Store) {
    && f.filing in store.filings
    && f.state == store.filings[f.filing].state && f.scenario == store.filings[f.filing].scenario
    && Reconcilable(f.state)
  }

  /** The list a reconciler fetches: open filings, once each, as they are stored. */
  ghost predicate Listing(list: seq<Due>, store: Store) {
    && Distinct(list)
    && forall i :: 0 <= i < |list| ==> Current(list[i], store)
  }

  /** And none is left out. */
  ghost predicate Full(list: seq<Due>, store: Store) {
    forall g :: g in store.filings && Reconcilable(store.filings[g].state) ==>
        exists i :: 0 <= i < |list| && list[i].filing == g
  }

  /** What a verdict is meant to do to the filing's state and to its run. */
  datatype Plan = Plan(filings: map<FilingKey, FilingRow>, runs: map<string, RunInfo>)

  function PlanOf(w: World): Plan {
    Plan(w.store.filings, w.runs)
  }

  function Carry(p: Plan, f: Due, v: Verdict, now: int, rivals: Rivals): Plan {
    match v
    case Finalize(o) =>
      if f.filing !in p.filings then p
      else p.(filings := p.filings[f.filing := p.filings[f.filing].(state := MapOutcome(o))])
    case Recreate => p.(runs := p.runs[WorkflowID(f.filing) := FreshRun(InputStarted(f, rivals), now)])
    case StartMissing => p.(runs := p.runs[WorkflowID(f.filing) := FreshRun(InputStarted(f, rivals), now)])
    case _ => p
  }

  function CarryAll(p: Plan, list: seq<Due>, verdicts: seq<Verdict>, now: int, rivals: Rivals): Plan
    requires |list| == |verdicts|
    decreases |list|
  {
    if list == [] then p
    else Carry(CarryAll(p, list[..|list| - 1], verdicts[..|list| - 1], now, rivals), list[|list| - 1],
        verdicts[|list| - 1], now, rivals)
  }

  /** Finalizing an open filing of a consistent world always applies, whatever the detail. */
  lemma FinalizeApplies(w: World, ledger: Ledgers, f: Due, o: Outcome, detail: string)
    requires Current(f, w.store) && ConsistentAt(w.store, ledger, f.filing)
    requires Resolved(StatusOf(Lookup(ledger, ProviderOperationID(f.filing)), ProviderOperationID(f.filing))) == Some(o)
    ensures var req := FinalCommand(f.filing, o, detail); var (store, reply) := Apply(w.store, req);
      && AppliedNow(reply)
      && store.filings == w.store.filings[f.filing := w.store.filings[f.filing].(state := MapOutcome(o))]
      && store.commands == w.store.commands[req.key := store.commands[req.key]]
  {
    assert FinalCommand(f.filing, o, detail).key[0] == 'f';
  }

  /** Finalizing keeps the world consistent. */
  lemma FinalizeStaysConsistent(w: World, ledger: Ledgers, f: Due, o: Outcome, detail: string)
    requires Consistent(w, ledger) && Current(f, w.store)
    requires Resolved(StatusOf(Lookup(ledger, ProviderOperationID(f.filing)), ProviderOperationID(f.filing))) == Some(o)
    ensures Consistent(w.(store := Apply(w.store, FinalCommand(f.filing, o, detail)).0), ledger)
  {
    assert ConsistentAt(w.store, ledger, f.filing);
    FinalizeApplies(w, ledger, f, o, detail);
    var store := Apply(w.store, FinalCommand(f.filing, o, detail)).0;
    forall g | g in store.filings
      ensures ConsistentAt(store, ledger, g)
    {
      assert ConsistentAt(w.store, ledger, g);
      if CommandKey(g, OutcomeSlot) == CommandKey(f.filing, OutcomeSlot) {
        CommandKeysNeverCollide(g, OutcomeSlot, f.filing, OutcomeSlot);
      }
    }
  }

  predicate Starts(v: Verdict) {
    v == Recreate || v == StartMissing
  }

  /** What one step keeps and does, given the verdict it acts on. */
  ghost predicate StepOk(w: World, ledger: Ledgers, f: Due, v: Verdict, m: Mode, rivals: Rivals) {
    var e := Enact(w, f, v, m, rivals);
    && (e.lost <==> Starts(v) && Beaten(f, rivals))
    && (e.failed <==> e.lost && m.who == Operator)
    && Consistent(e.world, ledger)
    && PlanOf(e.world) == Carry(PlanOf(w), f, v, m.now, rivals)
    && (forall g :: g != f.filing ==> Lookup(e.world.store.filings, g) == Lookup(w.store.filings, g))
  }

  lemma FinalizeCarries(w: World, ledger: Ledgers, f: Due, o: Outcome, m: Mode, rivals: Rivals)
    requires Current(f, w.store) && ConsistentAt(w.store, ledger, f.filing)
    requires Resolved(StatusOf(Lookup(ledger, ProviderOperationID(f.filing)), ProviderOperationID(f.filing))) == Some(o)
    ensures var e := Enact(w, f, Finalize(o), m, rivals);
      && !e.lost && !e.failed
      && e.world == w.(store := Apply(w.store, FinalCommand(f.filing, o, DetailOf(m.who))).0)
      && PlanOf(e.world) == Carry(PlanOf(w), f, Finalize(o), m.now, rivals)
  {
    FinalizeApplies(w, ledger, f, o, DetailOf(m.who));
  }

  lemma FinalizeStep(w: World, ledger: Ledgers, f: Due, o: Outcome, m: Mode, rivals: Rivals)
    requires Consistent(w, ledger) && Current(f, w.store)
    requires Resolved(StatusOf(Lookup(ledger, ProviderOperationID(f.filing)), ProviderOperationID(f.filing))) == Some(o)
    ensures StepOk(w, ledger, f, Finalize(o), m, rivals)
  {
    assert ConsistentAt(w.store, ledger, f.filing);
    FinalizeCarries(w, ledger, f, o, m, rivals);
    FinalizeStaysConsistent(w, ledger, f, o, DetailOf(m.who));
  }

  lemma FinalizeIsResolved(w: World, ledger: Ledgers, f: Due, m: Mode)
    ensures var v := JudgeIn(w, ledger, f, m);
      v.Finalize? ==> Resolved(StatusOf(Lookup(ledger, ProviderOperationID(f.filing)),
          ProviderOperationID(f.filing))) == Some(v.outcome)
  {
  }

  /** Every other verdict concerns the run only. */
  lemma RunsOnlyStep(w: World, f: Due, v: Verdict, m: Mode, rivals: Rivals)
    requires !v.Finalize?
    ensures var e := Enact(w, f, v, m, rivals);
      && e.world.store == w.store
      && PlanOf(e.world) == Carry(PlanOf(w), f, v, m.now, rivals)
  {
    var id := WorkflowID(f.filing);
    var run := FreshRun(InputStarted(f, rivals), m.now);
    assert (w.runs - {id})[id := run] == w.runs[id := run];
  }

  /** A step keeps the world consistent, and leaves every other filing as it was. */
  lemma StepStaysConsistent(w: World, ledger: Ledgers, f: Due, m: Mode, rivals: Rivals)
    requires Consistent(w, ledger) && Current(f, w.store)
    ensures StepOk(w, ledger, f, JudgeIn(w, ledger, f, m), m, rivals)
  {
    var v := JudgeIn(w, ledger, f, m);
    if v.Finalize? {
      FinalizeIsResolved(w, ledger, f, m);
      FinalizeStep(w, ledger, f, v.outcome, m, rivals);
    } else {
      RunsOnlyStep(w, f, v, m, rivals);
    }
  }

  /** The verdict on this filing starts a run that somebody else has started already. */
  predicate LosesRace(w: World, ledger: Ledgers, f: Due, m: Mode, rivals: Rivals) {
    Starts(JudgeIn(w, ledger, f, m)) && Beaten(f, rivals)
  }

  /** Some filing of the list does, which can be told before the pass. */
  ghost predicate LosesSomeRace(w: World, ledger: Ledgers, list: seq<Due>, m: Mode, rivals: Rivals) {
    exists i :: 0 <= i < |list| && LosesRace(w, ledger, list[i], m, rivals)
  }

  lemma RacesOfOneMore(w: World, ledger: Ledgers, list: seq<Due>, m: Mode, rivals: Rivals)
    requires list != []
    ensures LosesSomeRace(w, ledger, list, m, rivals) <==>
              LosesSomeRace(w, ledger, list[..|list| - 1], m, rivals)
              || LosesRace(w, ledger, list[|list| - 1], m, rivals)
  {
    var n := |list| - 1;
    if i :| 0 <= i < n && LosesRace(w, ledger, list[..n][i], m, rivals) {
      assert LosesRace(w, ledger, list[i], m, rivals);
    }
    if i :| 0 <= i < |list| && LosesRace(w, ledger, list[i], m, rivals) {
      assert i < n ==> list[..n][i] == list[i];
    }
  }

  /** What a pass over a current list leaves, and when it breaks off. */
  ghost predicate PassOk(w: World, ledger: Ledgers, list: seq<Due>, m: Mode, rivals: Rivals, rep: Report) {
    && (rep.failed <==> m.who == Operator && LosesSomeRace(w, ledger, list, m, rivals))
    && Consistent(rep.world, ledger)
    && (!rep.failed ==>
          && |rep.verdicts| == |list|
          && PlanOf(rep.world) == CarryAll(PlanOf(w), list, rep.verdicts, m.now, rivals))
    && (forall g: FilingKey :: (forall f :: f in list ==> f.filing != g) ==>
          Lookup(rep.world.store.filings, g) == Lookup(w.store.filings, g))
  }

  lemma PlanOnward(p: Plan, list: seq<Due>, verdicts: seq<Verdict>, v: Verdict, now: int, rivals: Rivals)
    requires list != [] && |verdicts| == |list| - 1
    ensures CarryAll(p, list, verdicts + [v], now, rivals) ==
              Carry(CarryAll(p, list[..|list| - 1], verdicts, now, rivals), list[|list| - 1], v, now, rivals)
  {
    assert (verdicts + [v])[..|list| - 1] == verdicts;
  }

  lemma PassOnward(w: World, ledger: Ledgers, list: seq<Due>, m: Mode, rivals: Rivals, rep: Report)
    requires m.apply && list != [] && PassOk(w, ledger, list[..|list| - 1], m, rivals, rep)
    requires rep.failed || StepOk(rep.world, ledger, list[|list| - 1],
                                  JudgeIn(w, ledger, list[|list| - 1], m), m, rivals)
    requires JudgeIn(rep.world, ledger, list[|list| - 1], m) == JudgeIn(w, ledger, list[|list| - 1], m)
    ensures PassOk(w, ledger, list, m, rivals, DealWith(rep, ledger, list[|list| - 1], m, rivals))
  {
    RacesOfOneMore(w, ledger, list, m, rivals);
    var n := |list| - 1;
    var after := DealWith(rep, ledger, list[n], m, rivals);
    if !after.failed {
      PlanOnward(PlanOf(w), list, rep.verdicts, JudgeIn(w, ledger, list[n], m), m.now, rivals);
    }
    forall g: FilingKey | forall f :: f in list ==> f.filing != g
      ensures Lookup(after.world.store.filings, g) == Lookup(w.store.filings, g)
    {
      assert forall f :: f in list[..n] ==> f in list;
      assert list[n] in list;
    }
  }

  lemma ListedOnceStays(w: World, ledger: Ledgers, list: seq<Due>, m: Mode, rivals: Rivals, rep: Report)
    requires Listing(list, w.store) && list != [] && PassOk(w, ledger, list[..|list| - 1], m, rivals, rep)
    ensures Current(list[|list| - 1], rep.world.store)
  {
    var n := |list| - 1;
    assert Current(list[n], w.store);
    assert forall g :: g in list[..n] ==> g.filing != list[n].filing;
    assert Lookup(rep.world.store.filings, list[n].filing) == Lookup(w.store.filings, list[n].filing);
  }

  /** From a consistent world a pass over a current list does exactly what its verdicts are
      meant to do, and breaks off exactly when it is the operator's and loses some start race. */
  lemma {:induction false} PassFollowsPlan(w: World, ledger: Ledgers, list: seq<Due>, m: Mode, rivals: Rivals)
    requires m.apply && Consistent(w, ledger) && Listing(list, w.store)
    ensures PassOk(w, ledger, list, m, rivals, Pass(w, ledger, list, m, rivals))
    decreases |list|
  {
    if list != [] {
      var n := |list| - 1;
      PassFollowsPlan(w, ledger, list[..n], m, rivals);
      var rep := Pass(w, ledger, list[..n], m, rivals);
      ListedOnceStays(w, ledger, list, m, rivals, rep);
      LastIsUntouched(w, ledger, list, m, rivals);
      JudgesAlike(w, rep.world, ledger, list[n], m, true);
      assert m.(apply := true) == m;
      StepStaysConsistent(rep.world, ledger, list[n], m, rivals);
      PassOnward(w, ledger, list, m, rivals, rep);
    }
  }

  /** Without rivals nothing breaks off. */
  lemma QuietPassFollowsPlan(w: World, ledger: Ledgers, list: seq<Due>, m: Mode)
    requires m.apply && Consistent(w, ledger) && Listing(list, w.store)
    ensures var rep := Pass(w, ledger, list, m, map[]); PassOk(w, ledger, list, m, map[], rep) && !rep.failed
  {
    PassFollowsPlan(w, ledger, list, m, map[]);
  }

  /** Verdicts depend on the clock and the bound, not on who passes them. */
  lemma DryRunsAgree(w: World, ledger: Ledgers, list: seq<Due>, a: Mode, b: Mode, rivals: Rivals)
    requires Distinct(list) && a.now == b.now && a.stale == b.stale
    ensures Pass(w, ledger, list, a.(apply := false), rivals).verdicts
            == Pass(w, ledger, list, b.(apply := false), rivals).verdicts
  {
    DryRunIsFaithful(w, ledger, list, a, rivals);
    DryRunIsFaithful(w, ledger, list, b, rivals);
    var x, y := Pass(w, ledger, list, a.(apply := false), rivals).verdicts,
        Pass(w, ledger, list, b.(apply := false), rivals).verdicts;
    assert forall i :: 0 <= i < |list| ==> x[i] == JudgeIn(w, ledger, list[i], a) == y[i];
  }

  /** What an applying pass acts on, against the dry run of the same reconciler. */
  lemma ActsOnDryVerdicts(w: World, ledger: Ledgers, list: seq<Due>, m: Mode, rivals: Rivals)
    requires Distinct(list) && m.apply
    ensures Matches(Pass(w, ledger, list, m.(apply := false), rivals), Pass(w, ledger, list, m, rivals))
  {
    DryRunIsFaithful(w, ledger, list, m, rivals);
    assert m.(apply := true) == m;
  }

  /** The two reconcilers agree: over the same list, clock, bound, runs and provider they act on
      the same verdicts in the same order, and leave the same filings, workflow IDs and inputs,
      except that the operator's command breaks off at the first lost start race. */
  lemma ReconcilersAgree(w: World, ledger: Ledgers, list: seq<Due>, a: Mode, b: Mode, rivals: Rivals)
    requires Consistent(w, ledger) && Listing(list, w.store)
    requires a.apply && b.apply && a.now == b.now && a.stale == b.stale
    requires a.who == Operator && b.who == Scheduled
    ensures var x, y := Pass(w, ledger, list, a, rivals), Pass(w, ledger, list, b, rivals);
      && !y.failed && x.verdicts <= y.verdicts
      && (x.failed <==> LosesSomeRace(w, ledger, list, a, rivals))
      && (!x.failed ==>
            && x.verdicts == y.verdicts
            && x.world.store.filings == y.world.store.filings
            && x.world.runs == y.world.runs)
  {
    DryRunsAgree(w, ledger, list, a, b, rivals);
    ActsOnDryVerdicts(w, ledger, list, a, rivals);
    ActsOnDryVerdicts(w, ledger, list, b, rivals);
    PassFollowsPlan(w, ledger, list, a, rivals);
    PassFollowsPlan(w, ledger, list, b, rivals);
  }

  /** A second recorder under any of a filing's keys, outcome or review, succeeds exactly when it
      writes the same detail; otherwise it is refused, and the state stays what the first one set. */
  lemma SecondRecorderSucceedsExactlyWhen(store: Store, f: FilingKey, slot: CommandSlot, t: CommandType,
          first: string, second: string)
    requires CarriesDetail(t) && AppliedNow(Apply(store, CommandFor(f, slot, t, first)).1)
    ensures var once := Apply(store, CommandFor(f, slot, t, first)).0;
      var (twice, reply) := Apply(once, CommandFor(f, slot, t, second));
      && (reply.Done? <==> first == second)
      && (first != second ==> twice == once && reply == Conflict)
      && twice.filings == once.filings
  {
    var once := Apply(store, CommandFor(f, slot, t, first)).0;
    var key := CommandKey(f, slot);
    assert once.commands[key].request == CommandFor(f, slot, t, first);
    assert once.commands[key := once.commands[key]] == once.commands;
    assert f in once.filings ==> once.filings[f := once.filings[f]] == once.filings;
  }

  // ---------- The second pass ----------

  /** Nothing is left to do for a filing, at any clock. */
  predicate Quiet(w: World, ledger: Ledgers, f: FilingKey)
    requires f in w.store.filings
  {
    var status := StatusOf(Lookup(ledger, ProviderOperationID(f)), ProviderOperationID(f));
    var run := Lookup(w.runs, WorkflowID(f));
    var state := w.store.filings[f].state;
    || Terminal(state)
    || (state == NeedsReview && Resolved(status).None?)
    || (state != NeedsReview && run.Some? && run.value.status != Error
        && (run.value.status == Success ==> Resolved(status).None?))
  }

  lemma QuietMeansNoAction(w: World, ledger: Ledgers, f: Due, m: Mode)
    requires Current(f, w.store) && Quiet(w, ledger, f.filing)
    ensures var v := JudgeIn(w, ledger, f, m); v == Healthy || v == Escalate
  {
  }

  /** One more filing of a pass that has not broken off. */
  lemma LastOfPass(w: World, ledger: Ledgers, list: seq<Due>, m: Mode)
    requires m.apply && Consistent(w, ledger) && Listing(list, w.store) && list != []
    ensures var n := |list| - 1; var rep := Pass(w, ledger, list[..n], m, map[]);
      var v := JudgeIn(rep.world, ledger, list[n], m); var whole := Pass(w, ledger, list, m, map[]);
      && |rep.verdicts| == n && whole.verdicts == rep.verdicts + [v]
      && whole.world == Enact(rep.world, list[n], v, m, map[]).world
      && Consistent(rep.world, ledger) && Current(list[n], rep.world.store)
  {
    var n := |list| - 1;
    QuietPassFollowsPlan(w, ledger, list[..n], m);
    assert Current(list[n], w.store);
    assert Lookup(Pass(w, ledger, list[..n], m, map[]).world.store.filings, list[n].filing) ==
        Lookup(w.store.filings, list[n].filing);
    QuietPassFollowsPlan(w, ledger, list, m);
  }

  lemma StepStartsFresh(w: World, f: Due, v: Verdict, m: Mode, rivals: Rivals)
    requires Starts(v)
    ensures var w' := Enact(w, f, v, m, rivals).world;
      Lookup(w'.runs, WorkflowID(f.filing)) == Some(FreshRun(InputStarted(f, rivals), m.now))
  {
  }

  lemma FinalizeMakesQuiet(w: World, ledger: Ledgers, f: Due, o: Outcome, m: Mode)
    requires Consistent(w, ledger) && Current(f, w.store)
    requires Resolved(StatusOf(Lookup(ledger, ProviderOperationID(f.filing)), ProviderOperationID(f.filing))) == Some(o)
    ensures var w' := Enact(w, f, Finalize(o), m, map[]).world;
      f.filing in w'.store.filings && Terminal(w'.store.filings[f.filing].state)
  {
    assert ConsistentAt(w.store, ledger, f.filing);
    FinalizeApplies(w, ledger, f, o, DetailOf(m.who));
  }

  lemma StepMakesQuiet(w: World, ledger: Ledgers, f: Due, m: Mode)
    requires Consistent(w, ledger) && Current(f, w.store)
    ensures var w' := Enact(w, f, JudgeIn(w, ledger, f, m), m, map[]).world;
      f.filing in w'.store.filings && Quiet(w', ledger, f.filing)
  {
    var v := JudgeIn(w, ledger, f, m);
    if v.Finalize? {
      FinalizeIsResolved(w, ledger, f, m);
      FinalizeMakesQuiet(w, ledger, f, v.outcome, m);
    } else if Starts(v) {
      StepStartsFresh(w, f, v, m, map[]);
      RunsOnlyStep(w, f, v, m, map[]);
    }
  }

  lemma QuietStays(w: World, ledger: Ledgers, f: Due, m: Mode, g: FilingKey)
    requires Consistent(w, ledger) && Current(f, w.store) && g != f.filing
    requires g in w.store.filings && Quiet(w, ledger, g)
    ensures var w' := Enact(w, f, JudgeIn(w, ledger, f, m), m, map[]).world;
      g in w'.store.filings && Quiet(w', ledger, g)
  {
    StepStaysConsistent(w, ledger, f, m, map[]);
    var v := JudgeIn(w, ledger, f, m);
    EnactIsLocal(w, f, v, m, map[], g);
    var w' := Enact(w, f, v, m, map[]).world;
    assert Lookup(w'.store.filings, g) == Some(w.store.filings[g]);
  }

  lemma {:induction false} PassMakesQuiet(w: World, ledger: Ledgers, list: seq<Due>, m: Mode, i: nat)
    requires m.apply && Consistent(w, ledger) && Listing(list, w.store) && i < |list|
    ensures var w' := Pass(w, ledger, list, m, map[]).world;
      list[i].filing in w'.store.filings && Quiet(w', ledger, list[i].filing)
    decreases |list|
  {
    var n := |list| - 1;
    LastOfPass(w, ledger, list, m);
    var rep := Pass(w, ledger, list[..n], m, map[]);
    if i == n {
      StepMakesQuiet(rep.world, ledger, list[n], m);
    } else {
      PassMakesQuiet(w, ledger, list[..n], m, i);
      QuietStays(rep.world, ledger, list[n], m, list[i].filing);
    }
  }

  /** A pass over quiet filings changes nothing. */
  lemma {:induction false} QuietPassChangesNothing(w: World, ledger: Ledgers, list: seq<Due>, m: Mode)
    requires Listing(list, w.store)
    requires forall i :: 0 <= i < |list| ==> Quiet(w, ledger, list[i].filing)
    ensures var rep := Pass(w, ledger, list, m, map[]); rep.world == w && !rep.failed
    decreases |list|
  {
    if list != [] {
      var n := |list| - 1;
      QuietPassChangesNothing(w, ledger, list[..n], m);
      QuietMeansNoAction(w, ledger, list[n], m);
    }
  }

  lemma UnlistedStays(w: World, ledger: Ledgers, list: seq<Due>, m: Mode, g: FilingKey)
    requires m.apply && Consistent(w, ledger) && Listing(list, w.store)
    requires forall f :: f in list ==> f.filing != g
    ensures Lookup(Pass(w, ledger, list, m, map[]).world.store.filings, g) == Lookup(w.store.filings, g)
  {
    QuietPassFollowsPlan(w, ledger, list, m);
  }

  lemma ClosedIsNotListed(list: seq<Due>, store: Store, g: FilingKey)
    requires Listing(list, store)
    requires !(g in store.filings && Reconcilable(store.filings[g].state))
    ensures forall f :: f in list ==> f.filing != g
  {
    forall f | f in list
      ensures f.filing != g
    {
      assert Current(f, store);
    }
  }

  /** What is open after a pass was open before it. */
  lemma OpenWasOpen(w: World, ledger: Ledgers, list: seq<Due>, m: Mode, g: FilingKey)
    requires m.apply && Consistent(w, ledger) && Listing(list, w.store)
    requires var after := Pass(w, ledger, list, m, map[]).world.store.filings;
      g in after && Reconcilable(after[g].state)
    ensures g in w.store.filings && Reconcilable(w.store.filings[g].state)
  {
    if !(g in w.store.filings && Reconcilable(w.store.filings[g].state)) {
      ClosedIsNotListed(list, w.store, g);
      UnlistedStays(w, ledger, list, m, g);
    }
  }

  /** Reconciliation is idempotent: after one pass over a full list, a second pass changes no
      filing, no command row and no run, whatever its clock, its bound and its detail. */
  lemma SecondPassChangesNothing(w: World, ledger: Ledgers, list: seq<Due>, m: Mode, again: seq<Due>, m': Mode)
    requires m.apply && Consistent(w, ledger) && Listing(list, w.store) && Full(list, w.store)
    requires Listing(again, Pass(w, ledger, list, m, map[]).world.store)
    ensures var w' := Pass(w, ledger, list, m, map[]).world;
      var second := Pass(w', ledger, again, m', map[]);
      second.world == w' && !second.failed
  {
    QuietPassFollowsPlan(w, ledger, list, m);
    var w' := Pass(w, ledger, list, m, map[]).world;
    forall i | 0 <= i < |again|
      ensures again[i].filing in w'.store.filings && Quiet(w', ledger, again[i].filing)
    {
      var g := again[i].filing;
      assert Current(again[i], w'.store);
      OpenWasOpen(w, ledger, list, m, g);
      var k :| 0 <= k < |list| && list[k].filing == g;
      PassMakesQuiet(w, ledger, list, m, k);
    }
    QuietPassChangesNothing(w', ledger, again, m');
  }

  // ---------- Counting ----------

  datatype Kind = Fine | Raised | Closed | Remade | Made

  function KindOf(v: Verdict): Kind {
    match v
    case Healthy => Fine
    case Escalate => Raised
    case Finalize(_) => Closed
    case Recreate => Remade
    case StartMissing => Made
  }

  function HowMany(verdicts: seq<Verdict>, kind: Kind): nat
    decreases |verdicts|
  {
    if verdicts == [] then 0
    else HowMany(verdicts[..|verdicts| - 1], kind) + (if KindOf(verdicts[|verdicts| - 1]) == kind then 1 else 0)
  }

  /** Every filing of a list falls under exactly one kind. */
  lemma {:induction false} KindsAddUp(verdicts: seq<Verdict>)
    ensures HowMany(verdicts, Fine) + HowMany(verdicts, Raised) + HowMany(verdicts, Closed)
            + HowMany(verdicts, Remade) + HowMany(verdicts, Made) == |verdicts|
    decreases |verdicts|
  {
    if verdicts != [] {
      KindsAddUp(verdicts[..|verdicts| - 1]);
    }
  }

  lemma CountAppend(verdicts: seq<Verdict>, v: Verdict, kind: Kind)
    ensures HowMany(verdicts + [v], kind) == HowMany(verdicts, kind) + (if KindOf(v) == kind then 1 else 0)
  {
    assert (verdicts + [v])[..|verdicts|] == verdicts;
  }

  // ---------- The inputs of runs ----------

  /** The verdict on a filing started a run, and the run holds what was to be started. */
  predicate FreshAt(rep: Report, f: Due, i: nat, m: Mode, rivals: Rivals) {
    i < |rep.verdicts| && Starts(rep.verdicts[i]) ==>
      var id := WorkflowID(f.filing);
      Lookup(rep.world.runs, id) ==
        Some(RunInfo(Enqueued, m.now, m.now, if id in rivals then rivals[id].input
                                             else FilingInput(f.filing, f.scenario)))
  }

  lemma {:induction false} OneVerdictEach(w: World, ledger: Ledgers, list: seq<Due>, m: Mode, rivals: Rivals)
    ensures var rep := Pass(w, ledger, list, m, rivals);
      |rep.verdicts| <= |list| && (!rep.failed ==> |rep.verdicts| == |list|)
    decreases |list|
  {
    if list != [] {
      OneVerdictEach(w, ledger, list[..|list| - 1], m, rivals);
    }
  }

  /** One more filing leaves the runs of all other filings, and all earlier verdicts. */
  lemma DealingIsLocal(before: Report, ledger: Ledgers, f: Due, m: Mode, rivals: Rivals, g: FilingKey)
    requires m.apply && g != f.filing
    ensures var after := DealWith(before, ledger, f, m, rivals);
      && Lookup(after.world.runs, WorkflowID(g)) == Lookup(before.world.runs, WorkflowID(g))
      && before.verdicts <= after.verdicts && |after.verdicts| <= |before.verdicts| + 1
  {
    EnactIsLocal(before.world, f, JudgeIn(before.world, ledger, f, m), m, rivals, g);
  }

  lemma DealingStartsFresh(before: Report, ledger: Ledgers, f: Due, m: Mode, rivals: Rivals)
    requires m.apply
    ensures FreshAt(DealWith(before, ledger, f, m, rivals), f, |before.verdicts|, m, rivals)
  {
    var v := JudgeIn(before.world, ledger, f, m);
    if Starts(v) { StepStartsFresh(before.world, f, v, m, rivals); }
  }

  lemma FreshStays(before: Report, after: Report, g: Due, i: nat, n: nat, m: Mode, rivals: Rivals)
    requires FreshAt(before, g, i, m, rivals) && i < n
    requires Lookup(after.world.runs, WorkflowID(g.filing)) == Lookup(before.world.runs, WorkflowID(g.filing))
    requires before.verdicts <= after.verdicts && (|before.verdicts| == n || after.verdicts == before.verdicts)
    ensures FreshAt(after, g, i, m, rivals)
  {
  }

  lemma FreshOnward(before: Report, ledger: Ledgers, f: Due, g: Due, i: nat, n: nat, m: Mode, rivals: Rivals)
    requires m.apply && g.filing != f.filing && FreshAt(before, g, i, m, rivals)
    requires i < n && (before.failed || |before.verdicts| == n)
    ensures FreshAt(DealWith(before, ledger, f, m, rivals), g, i, m, rivals)
  {
    DealingIsLocal(before, ledger, f, m, rivals, g.filing);
    FreshStays(before, DealWith(before, ledger, f, m, rivals), g, i, n, m, rivals);
  }

  lemma FreshTurn(before: Report, ledger: Ledgers, list: seq<Due>, m: Mode, rivals: Rivals, i: nat, n: nat)
    requires m.apply && Distinct(list) && i <= n < |list|
    requires |before.verdicts| <= n && (before.failed || |before.verdicts| == n)
    requires i < n ==> FreshAt(before, list[i], i, m, rivals)
    ensures FreshAt(DealWith(before, ledger, list[n], m, rivals), list[i], i, m, rivals)
  {
    if i < n {
      FreshOnward(before, ledger, list[n], list[i], i, n, m, rivals);
    } else if !before.failed {
      DealingStartsFresh(before, ledger, list[n], m, rivals);
    }
  }

  lemma {:induction false} StartedUpTo(w: World, ledger: Ledgers, list: seq<Due>, m: Mode, rivals: Rivals,
          i: nat, k: nat)
    requires m.apply && Distinct(list) && i < k <= |list|
    ensures FreshAt(Pass(w, ledger, list[..k], m, rivals), list[i], i, m, rivals)
    decreases k
  {
    var n := k - 1;
    OneVerdictEach(w, ledger, list[..n], m, rivals);
    if i < n {
      StartedUpTo(w, ledger, list, m, rivals, i, n);
    }
    FreshTurn(Pass(w, ledger, list[..n], m, rivals), ledger, list, m, rivals, i, n);
    PassStep(w, ledger, list, m, rivals, n);
  }

  /** What a pass starts, whether or not it breaks off later, holds the filing and the scenario
      that Accountable lists, unless a rival was there first. */
  lemma StartedIsFresh(w: World, ledger: Ledgers, list: seq<Due>, m: Mode, rivals: Rivals, i: nat)
    requires m.apply && Distinct(list) && i < |list|
    ensures FreshAt(Pass(w, ledger, list, m, rivals), list[i], i, m, rivals)
  {
    StartedUpTo(w, ledger, list, m, rivals, i, |list|);
    assert list[..|list|] == list;
  }

  lemma VerdictIsJudgement(w: World, ledger: Ledgers, list: seq<Due>, m: Mode, rivals: Rivals, i: nat)
    requires m.apply && Distinct(list) && i < |Pass(w, ledger, list, m, rivals).verdicts|
    ensures i < |list| && Pass(w, ledger, list, m, rivals).verdicts[i] == JudgeIn(w, ledger, list[i], m)
  {
    DryRunIsFaithful(w, ledger, list, m, rivals);
    assert m.(apply := true) == m;
  }

  /** Recreation keeps a run's input exactly when the run held what is listed now, which can be
      read off the list and the run before the pass; for every pass, finished or broken off. */
  lemma RecreationKeepsInputExactlyWhen(w: World, ledger: Ledgers, list: seq<Due>, m: Mode, rivals: Rivals, i: nat)
    requires m.apply && Distinct(list)
    requires var rep := Pass(w, ledger, list, m, rivals); i < |rep.verdicts| && rep.verdicts[i] == Recreate
    ensures var runs := Pass(w, ledger, list, m, rivals).world.runs;
      && i < |list|
      && var id := WorkflowID(list[i].filing);
        && id in w.runs && id in runs
        && (runs[id].input == w.runs[id].input <==> w.runs[id].input == InputStarted(list[i], rivals))
  {
    VerdictIsJudgement(w, ledger, list, m, rivals, i);
    StartedIsFresh(w, ledger, list, m, rivals, i);
  }

  predicate NotStarted(rep: Report, i: nat) {
    i < |rep.verdicts| ==> !Starts(rep.verdicts[i])
  }

  lemma StartingIsReported(before: Report, ledger: Ledgers, f: Due, m: Mode)
    requires m.apply
    ensures var v := JudgeIn(before.world, ledger, f, m); var after := DealWith(before, ledger, f, m, map[]);
      !before.failed && Starts(v) ==> after.verdicts == before.verdicts + [v]
  {
  }

  /** A turn that starts nothing changes no run. */
  lemma DealingKeepsRuns(before: Report, ledger: Ledgers, f: Due, m: Mode)
    requires m.apply && NotStarted(DealWith(before, ledger, f, m, map[]), |before.verdicts|)
    ensures DealWith(before, ledger, f, m, map[]).world.runs == before.world.runs
  {
    StartingIsReported(before, ledger, f, m);
  }

  lemma NotStartedBefore(before: Report, after: Report, i: nat)
    requires before.verdicts <= after.verdicts && NotStarted(after, i)
    ensures NotStarted(before, i)
  {
  }

  lemma LastKeepsRuns(before: Report, ledger: Ledgers, f: Due, m: Mode, n: nat)
    requires m.apply && NotStarted(DealWith(before, ledger, f, m, map[]), n)
    requires before.failed || |before.verdicts| == n
    ensures DealWith(before, ledger, f, m, map[]).world.runs == before.world.runs
  {
    if !before.failed {
      DealingKeepsRuns(before, ledger, f, m);
    }
  }

  lemma KeptTurn(before: Report, ledger: Ledgers, list: seq<Due>, m: Mode, i: nat, n: nat)
    requires m.apply && Distinct(list) && i <= n < |list|
    requires before.failed || |before.verdicts| == n
    requires NotStarted(DealWith(before, ledger, list[n], m, map[]), i)
    ensures var id := WorkflowID(list[i].filing);
      Lookup(DealWith(before, ledger, list[n], m, map[]).world.runs, id) == Lookup(before.world.runs, id)
    ensures i < n ==> NotStarted(before, i)
  {
    if i < n {
      DealingIsLocal(before, ledger, list[n], m, map[], list[i].filing);
      NotStartedBefore(before, DealWith(before, ledger, list[n], m, map[]), i);
    } else {
      LastKeepsRuns(before, ledger, list[n], m, n);
    }
  }

  lemma {:induction false} KeptUpTo(w: World, ledger: Ledgers, list: seq<Due>, m: Mode, i: nat, k: nat)
    requires m.apply && Distinct(list) && i < k <= |list|
    requires NotStarted(Pass(w, ledger, list[..k], m, map[]), i)
    ensures var id := WorkflowID(list[i].filing);
      Lookup(Pass(w, ledger, list[..k], m, map[]).world.runs, id) == Lookup(w.runs, id)
    decreases k
  {
    var n := k - 1;
    OneVerdictEach(w, ledger, list[..n], m, map[]);
    PassStep(w, ledger, list, m, map[], n);
    KeptTurn(Pass(w, ledger, list[..n], m, map[]), ledger, list, m, i, n);
    if i < n {
      KeptUpTo(w, ledger, list, m, i, n);
    } else {
      OthersAreUntouched(w, ledger, list[..n], m, map[], list[n].filing);
    }
  }

  lemma KeptRuns(w: World, ledger: Ledgers, list: seq<Due>, m: Mode, i: nat)
    requires m.apply && Distinct(list) && i < |list| && NotStarted(Pass(w, ledger, list, m, map[]), i)
    ensures var id := WorkflowID(list[i].filing);
      Lookup(Pass(w, ledger, list, m, map[]).world.runs, id) == Lookup(w.runs, id)
  {
    assert list[..|list|] == list;
    KeptUpTo(w, ledger, list, m, i, |list|);
  }

  /** A filing that has a run is only ever started again by recreating the run. */
  lemma NotMissing(w: World, ledger: Ledgers, list: seq<Due>, m: Mode, i: nat)
    requires m.apply && Distinct(list) && i < |list| && WorkflowID(list[i].filing) in w.runs
    requires !NotStarted(Pass(w, ledger, list, m, map[]), i)
    ensures Pass(w, ledger, list, m, map[]).verdicts[i] == Recreate
  {
    VerdictIsJudgement(w, ledger, list, m, map[], i);
  }

  /** A pass changes the input of a listed filing's run exactly when it recreates the run, and
      the run held another filing or scenario than Accountable lists. */
  lemma InputChangesExactlyWhen(w: World, ledger: Ledgers, list: seq<Due>, m: Mode, i: nat)
    requires m.apply && Distinct(list) && i < |list| && WorkflowID(list[i].filing) in w.runs
    ensures var rep := Pass(w, ledger, list, m, map[]); var id := WorkflowID(list[i].filing);
      && id in rep.world.runs
      && (rep.world.runs[id].input != w.runs[id].input <==>
            i < |rep.verdicts| && rep.verdicts[i] == Recreate
            && w.runs[id].input != FilingInput(list[i].filing, list[i].scenario))
  {
    if !NotStarted(Pass(w, ledger, list, m, map[]), i) {
      NotMissing(w, ledger, list, m, i);
      RecreationKeepsInputExactlyWhen(w, ledger, list, m, map[], i);
    } else {
      KeptRuns(w, ledger, list, m, i);
    }
  }

  lemma RecreatedExactlyWhen(w: World, ledger: Ledgers, f: Due, m: Mode)
    requires WorkflowID(f.filing) in w.runs
    ensures JudgeIn(w, ledger, f, m) == Recreate <==>
              f.state != NeedsReview && w.runs[WorkflowID(f.filing)].status == Error
  {
  }

  /** From a consistent world and a current list: exactly when the run has failed, the filing is
      not in review, and the run held another filing or scenario than listed. */
  lemma FailedInputChangesExactlyWhen(w: World, ledger: Ledgers, list: seq<Due>, m: Mode, i: nat)
    requires m.apply && Consistent(w, ledger) && Listing(list, w.store)
    requires i < |list| && WorkflowID(list[i].filing) in w.runs
    ensures var rep := Pass(w, ledger, list, m, map[]); var id := WorkflowID(list[i].filing);
      && id in rep.world.runs
      && (rep.world.runs[id].input != w.runs[id].input <==>
            && list[i].state != NeedsReview && w.runs[id].status == Error
            && w.runs[id].input != FilingInput(list[i].filing, list[i].scenario))
  {
    QuietPassFollowsPlan(w, ledger, list, m);
    VerdictIsJudgement(w, ledger, list, m, map[], i);
    RecreatedExactlyWhen(w, ledger, list[i], m);
    InputChangesExactlyWhen(w, ledger, list, m, i);
  }

  /** So a workflow's input can change: a run that failed with one scenario comes back with the
      one that Accountable holds. */
  lemma RecreationMayChangeInput(f: FilingKey, who: Reconciler)
    ensures var id := WorkflowID(f);
      var row := FilingRow(ScenarioReject, Submitting, Some(ProviderOperationID(f)));
      var failed := RunInfo(Error, 0, 0, FilingInput(f, ScenarioOK));
      var w := World(Store(map[f := row], map[]), map[id := failed]);
      var rep := Pass(w, map[], [Due(f, ScenarioReject, Submitting)], Mode(true, who, 100, 30), map[]);
      && rep.verdicts == [Recreate] && !rep.failed
      && id in rep.world.runs && rep.world.runs[id].input == FilingInput(f, ScenarioReject)
      && w.runs[id].input != rep.world.runs[id].input
  {
    var row := FilingRow(ScenarioReject, Submitting, Some(ProviderOperationID(f)));
    var failed := RunInfo(Error, 0, 0, FilingInput(f, ScenarioOK));
    var w := World(Store(map[f := row], map[]), map[WorkflowID(f) := failed]);
    var list := [Due(f, ScenarioReject, Submitting)];
    var m := Mode(true, who, 100, 30);
    assert list[..0] == [] && list[..1] == list;
    PassStep(w, map[], list, m, map[], 0);
    StepStartsFresh(w, list[0], Recreate, m, map[]);
  }

  // ---------- The two programs ----------

  function FinalCommandType(o: Outcome): Option<CommandType> {
    match o
    case OutcomeAccepted => Some(MarkFilingAccepted)
    case OutcomeRejected => Some(MarkFilingRejected)
    case NoOutcome => None
  }

  /** Once a pass has broken off, the rest of the list does not matter. */
  lemma {:induction false} BrokenPass(w: World, ledger: Ledgers, list: seq<Due>, m: Mode, rivals: Rivals, i: nat)
    requires i <= |list| && Pass(w, ledger, list[..i], m, rivals).failed
    ensures Pass(w, ledger, list, m, rivals) == Pass(w, ledger, list[..i], m, rivals)
    decreases |list| - i
  {
    if i == |list| {
      assert list[..i] == list;
    } else {
      PassStep(w, ledger, list, m, rivals, i);
      BrokenPass(w, ledger, list, m, rivals, i + 1);
    }
  }

  /** What the operator's command did with one filing, and the line it printed. */
  ghost predicate OperatorDid(w: World, w': World, ledger: Ledgers, f: Due, m: Mode, rivals: Rivals,
          line: Option<Verdict>)
  {
    var v := JudgeIn(w, ledger, f, m);
    if !m.apply then line == Some(v) && w' == w
    else
      var e := Enact(w, f, v, m, rivals);
      w' == e.world && line == (if e.failed then None else Some(v))
  }

  /** The number of missing runs that a report stands for. */
  ghost predicate CountsMissing(rep: Report, missing: nat) {
    missing == HowMany(rep.verdicts, Made)
  }

  lemma MissingFollows(before: Report, after: Report, v: Verdict, missing: nat)
    requires CountsMissing(before, missing) && after.verdicts == before.verdicts + [v]
    ensures CountsMissing(after, missing + (if v == StartMissing then 1 else 0))
  {
    CountAppend(before.verdicts, v, Made);
  }

  /** One turn of the operator's loop. A pass that gives up on a lost race never counts one. */
  lemma OperatorTurn(w: World, rep: Report, w': World, ledger: Ledgers, list: seq<Due>, m: Mode,
          rivals: Rivals, i: nat, line: Option<Verdict>)
    requires i < |list| && rep == Pass(w, ledger, list[..i], m, rivals) && !rep.failed
    requires m.who == Operator && OperatorDid(rep.world, w', ledger, list[i], m, rivals, line)
    ensures var after := Pass(w, ledger, if line.Some? then list[..i + 1] else list, m, rivals);
      && after.world == w' && after.lost == rep.lost && after.failed == line.None?
      && after.verdicts == (if line.Some? then rep.verdicts + [line.value] else rep.verdicts)
  {
    PassStep(w, ledger, list, m, rivals, i);
    if line.None? {
      BrokenPass(w, ledger, list, m, rivals, i + 1);
    }
  }

  datatype Increments = Broken | Raise(started: bool, recreated: bool, finalized: bool, escalated: bool)

  datatype Counters = Counters(started: nat, recreated: nat, finalized: nat, escalated: nat)

  function Plus(c: Counters, done: Increments): Counters
    requires done.Raise?
  {
    Counters(c.started + (if done.started then 1 else 0), c.recreated + (if done.recreated then 1 else 0),
             c.finalized + (if done.finalized then 1 else 0), c.escalated + (if done.escalated then 1 else 0))
  }

  /** The counters of the scheduled summary, as counts of verdicts. A lost start race is a
      filing that was to be started and was not. */
  ghost predicate Summary(rep: Report, c: Counters) {
    && c.recreated == HowMany(rep.verdicts, Remade)
    && c.finalized == HowMany(rep.verdicts, Closed)
    && c.escalated == HowMany(rep.verdicts, Raised)
    && c.started + rep.lost == HowMany(rep.verdicts, Remade) + HowMany(rep.verdicts, Made)
  }

  lemma SummaryAddsUp(rep: Report, c: Counters)
    requires Summary(rep, c)
    ensures |rep.verdicts| == c.started + c.finalized + c.escalated + HowMany(rep.verdicts, Fine) + rep.lost
  {
    KindsAddUp(rep.verdicts);
  }

  /** What the scheduled workflow did with one filing, and the counters it raised. */
  ghost predicate ScheduledDid(w: World, w': World, ledger: Ledgers, f: Due, m: Mode, rivals: Rivals,
          done: Increments)
  {
    var v := JudgeIn(w, ledger, f, m);
    var e := Enact(w, f, v, m, rivals);
    && w' == e.world && done.Broken? == e.failed
    && (!e.failed ==> done == Raise(Starts(v) && !e.lost, v == Recreate, v.Finalize?, v == Escalate))
  }

  lemma CountsAppend(verdicts: seq<Verdict>, v: Verdict)
    ensures forall kind ::
              HowMany(verdicts + [v], kind) == HowMany(verdicts, kind) + (if KindOf(v) == kind then 1 else 0)
  {
    forall kind {
      CountAppend(verdicts, v, kind);
    }
  }

  lemma ScheduledDeals(rep: Report, w': World, ledger: Ledgers, f: Due, m: Mode, rivals: Rivals, done: Increments,
          c: Counters)
    requires m.apply && !rep.failed && ScheduledDid(rep.world, w', ledger, f, m, rivals, done)
    requires Summary(rep, c)
    ensures var after := DealWith(rep, ledger, f, m, rivals);
      && after.world == w' && after.failed == done.Broken?
      && (!after.failed ==> |after.verdicts| == |rep.verdicts| + 1 && Summary(after, Plus(c, done)))
  {
    CountsAppend(rep.verdicts, JudgeIn(rep.world, ledger, f, m));
  }

  /** One turn of the scheduled loop, with its counters. */
  lemma ScheduledTurn(w: World, rep: Report, w': World, ledger: Ledgers, list: seq<Due>, m: Mode, rivals: Rivals,
          i: nat, done: Increments, c: Counters)
    returns (after: Report)
    requires i < |list| && rep == Pass(w, ledger, list[..i], m, rivals) && !rep.failed
    requires m.apply && ScheduledDid(rep.world, w', ledger, list[i], m, rivals, done)
    requires Summary(rep, c)
    ensures after == Pass(w, ledger, if done.Broken? then list else list[..i + 1], m, rivals)
    ensures after.world == w' && after.failed == done.Broken?
    ensures !after.failed ==> |after.verdicts| == |rep.verdicts| + 1 && Summary(after, Plus(c, done))
  {
    PassStep(w, ledger, list, m, rivals, i);
    ScheduledDeals(rep, w', ledger, list[i], m, rivals, done, c);
    after := Pass(w, ledger, list[..i + 1], m, rivals);
    if done.Broken? {
      BrokenPass(w, ledger, list, m, rivals, i + 1);
      after := Pass(w, ledger, list, m, rivals);
    }
  }

  /** The services that both reconcilers work on. */
  class Fleet {
    var store: Store
    var runs: map<string, RunInfo>
    const ledger: Ledgers
    const rivals: Rivals

    function State(): World
      reads this
    {
      World(store, runs)
    }

    constructor (w: World, ledger: Ledgers, rivals: Rivals)
      ensures State() == w && this.ledger == ledger && this.rivals == rivals
    {
      store, runs := w.store, w.runs;
      this.ledger, this.rivals := ledger, rivals;
    }

    method ProviderStatus(id: string) returns (status: StatusResponse)
      ensures status == StatusOf(Lookup(ledger, id), id)
      ensures status.NotFound? <==> id !in ledger
      ensures forall o :: Resolved(status) == Some(o) <==>
                id in ledger && ledger[id].status == Completed && ledger[id].outcome == o && o != NoOutcome
    {
      status := if id in ledger then Found(id, ledger[id].status, ledger[id].outcome) else NotFound;
    }

    method ApplyCommand(req: CommandRequest) returns (ok: bool)
      modifies this`store
      ensures store == Apply(old(store), req).0 && ok == Apply(old(store), req).1.Done?
    {
      var (next, reply) := Apply(store, req);
      store := next;
      ok := reply.Done?;
    }

    method Delete(id: string)
      modifies this`runs
      ensures runs == old(runs) - {id}
    {
      runs := runs - {id};
    }

    /** Starts a run; a rival may have taken the ID since the caller looked. */
    method Enqueue(id: string, input: FilingInput, now: int) returns (conflict: bool)
      requires id !in runs
      modifies this`runs
      ensures runs == old(runs)[id := FreshRun(if id in rivals then rivals[id].input else input, now)]
      ensures conflict == (id in rivals && rivals[id].signalled)
    {
      conflict := false;
      if id in rivals {
        runs := runs[id := FreshRun(rivals[id].input, now)];
      }
      if id in runs {
        conflict := rivals[id].signalled;
      } else {
        runs := runs[id := FreshRun(input, now)];
      }
    }

    /** The same, for a filing whose run ended in success. */
    method OperatorInspect(f: Due, apply: bool, now: int, stale: int) returns (line: Option<Verdict>)
      requires f.state != NeedsReview && WorkflowID(f.filing) in runs && runs[WorkflowID(f.filing)].status == Success
      modifies this
      ensures var m := Mode(apply, Operator, now, stale);
        && OperatorDid(old(State()), State(), ledger, f, m, rivals, line)
        && line != Some(StartMissing)
    {
      var status := ProviderStatus(ProviderOperationID(f.filing));
      var commandType := if status.Found? then FinalCommandType(status.outcome) else None;
      if status.NotFound? || status.status != Completed || commandType.None? {
        return Some(Escalate);
      }
      if !apply {
        return Some(Finalize(status.outcome));
      }
      var ok := ApplyCommand(CommandFor(f.filing, OutcomeSlot, commandType.value, DetailOf(Operator)));
      return if ok then Some(Finalize(status.outcome)) else None;
    }

    /** The same, for a filing that has a run. */
    method OperatorRepair(f: Due, run: RunInfo, apply: bool, now: int, stale: int) returns (line: Option<Verdict>)
      requires f.state != NeedsReview && Lookup(runs, WorkflowID(f.filing)) == Some(run)
      modifies this
      ensures var m := Mode(apply, Operator, now, stale);
        && OperatorDid(old(State()), State(), ledger, f, m, rivals, line)
        && line != Some(StartMissing)
    {
      var id := WorkflowID(f.filing);
      if run.status == Pending || run.status == Enqueued {
        var age := now - run.updatedAt;
        return if age >= stale then Some(Escalate) else Some(Healthy);
      }
      if run.status == Delayed {
        return if now < run.delayUntil + stale then Some(Healthy) else Some(Escalate);
      }
      if run.status == Cancelled {
        return Some(Escalate);
      }
      if run.status == Error {
        if !apply {
          return Some(Recreate);
        }
        Delete(id);
        var conflict := Enqueue(id, FilingInput(f.filing, f.scenario), now);
        return if conflict then None else Some(Recreate);
      }
      if run.status == Success {
        line := OperatorInspect(f, apply, now, stale);
        return;
      }
      return Some(Escalate);
    }

    /** One filing of the operator's command: the line it prints, or none when it breaks off. */
    method OperatorStep(f: Due, apply: bool, now: int, stale: int) returns (line: Option<Verdict>, wasMissing: bool)
      modifies this
      ensures var m := Mode(apply, Operator, now, stale);
        && OperatorDid(old(State()), State(), ledger, f, m, rivals, line)
        && (line.Some? ==> wasMissing == (line.value == StartMissing))
    {
      wasMissing := false;
      var id := WorkflowID(f.filing);
      var found := Lookup(runs, id);
      if f.state == NeedsReview {
        var status := ProviderStatus(ProviderOperationID(f.filing));
        if status.NotFound? || status.status != Completed {
          return Some(Escalate), false;
        }
        var commandType := FinalCommandType(status.outcome);
        if commandType.None? {
          return Some(Escalate), false;
        }
        if !apply {
          return Some(Finalize(status.outcome)), false;
        }
        var ok := ApplyCommand(CommandFor(f.filing, OutcomeSlot, commandType.value, DetailOf(Operator)));
        return if ok then Some(Finalize(status.outcome)) else None, false;
      }
      if found.Some? {
        line := OperatorRepair(f, found.value, apply, now, stale);
        return;
      }
      wasMissing := true;
      if !apply {
        return Some(StartMissing), true;
      }
      var conflict := Enqueue(id, FilingInput(f.filing, f.scenario), now);
      line := if conflict then None else Some(StartMissing);
    }

    /** The operator's command. A failed write ends it at once. */
    method OperatorPass(list: seq<Due>, apply: bool, now: int, stale: int)
      returns (lines: seq<Verdict>, missing: nat, failed: bool)
      modifies this
      ensures var rep := Pass(old(State()), ledger, list, Mode(apply, Operator, now, stale), rivals);
        && rep.world == State() && rep.verdicts == lines && rep.lost == 0 && rep.failed == failed
        && (!failed ==> CountsMissing(rep, missing))
    {
      ghost var m := Mode(apply, Operator, now, stale);
      ghost var w := State();
      ghost var rep := Report(w, [], 0, false);
      lines, missing := [], 0;
      var i := 0;
      while i < |list|
        invariant i <= |list|
        invariant rep == Pass(w, ledger, list[..i], m, rivals)
        invariant rep.world == State() && rep.verdicts == lines && rep.lost == 0 && !rep.failed
        invariant CountsMissing(rep, missing)
      {
        var line, wasMissing := OperatorStep(list[i], apply, now, stale);
        OperatorTurn(w, rep, State(), ledger, list, m, rivals, i, line);
        if line.None? {
          return lines, missing, true;
        }
        ghost var after := Pass(w, ledger, list[..i + 1], m, rivals);
        MissingFollows(rep, after, line.value, missing);
        missing := missing + (if wasMissing then 1 else 0);
        rep := after;
        lines := lines + [line.value];
        i := i + 1;
      }
      assert list[..|list|] == list;
      failed := false;
    }

    method InspectSuccessful(f: Due, now: int, stale: int) returns (done: Increments)
      requires f.state != NeedsReview && WorkflowID(f.filing) in runs && runs[WorkflowID(f.filing)].status == Success
      modifies this
      ensures ScheduledDid(old(State()), State(), ledger, f, Mode(true, Scheduled, now, stale), rivals, done)
    {
      var status := ProviderStatus(ProviderOperationID(f.filing));
      var state := if status.Found? then MapOutcome(status.outcome) else NeedsReview;
      if status.NotFound? || status.status != Completed || state == NeedsReview {
        return Raise(false, false, false, true);
      }
      var ok := ApplyCommand(CommandFor(f.filing, OutcomeSlot, OutcomeCommand(state), DetailOf(Scheduled)));
      return if ok then Raise(false, false, true, false) else Broken;
    }

    /** One filing of the scheduled workflow: the counters it raises, or its error. */
    method ScheduledStep(f: Due, now: int, stale: int) returns (done: Increments)
      modifies this
      ensures ScheduledDid(old(State()), State(), ledger, f, Mode(true, Scheduled, now, stale), rivals, done)
    {
      var id := WorkflowID(f.filing);
      if f.state == NeedsReview {
        var status := ProviderStatus(ProviderOperationID(f.filing));
        if status.NotFound? || status.status != Completed {
          return Raise(false, false, false, true);
        }
        var state := MapOutcome(status.outcome);
        if state == NeedsReview {
          return Raise(false, false, false, true);
        }
        var ok := ApplyCommand(CommandFor(f.filing, OutcomeSlot, OutcomeCommand(state), DetailOf(Scheduled)));
        return if ok then Raise(false, false, true, false) else Broken;
      }
      var remade := false;
      if id in runs {
        var run := runs[id];
        match run.status {
          case Cancelled =>
            return Raise(false, false, false, true);
          case Pending =>
            return Raise(false, false, false, now - run.updatedAt >= stale);
          case Enqueued =>
            return Raise(false, false, false, now - run.updatedAt >= stale);
          case Delayed =>
            return Raise(false, false, false, !(now < run.delayUntil + stale));
          case Success =>
            done := InspectSuccessful(f, now, stale);
            return;
          case Error =>
            Delete(id);
            remade := true;
          case UnknownStatus =>
            return Raise(false, false, false, true);
        }
      }
      var conflict := Enqueue(id, FilingInput(f.filing, f.scenario), now);
      done := Raise(!conflict, remade, false, false);
    }

    /** The scheduled workflow: the counters of its summary, unless it ends with an error. */
    method ScheduledPass(list: seq<Due>, now: int, stale: int)
      returns (started: nat, recreated: nat, finalized: nat, escalated: nat, failed: bool)
      modifies this
      ensures var rep := Pass(old(State()), ledger, list, Mode(true, Scheduled, now, stale), rivals);
        && rep.world == State() && rep.failed == failed
        && (!failed ==>
              && Summary(rep, Counters(started, recreated, finalized, escalated))
              && |list| == started + finalized + escalated + HowMany(rep.verdicts, Fine) + rep.lost)
    {
      ghost var m := Mode(true, Scheduled, now, stale);
      ghost var w := State();
      ghost var rep := Report(w, [], 0, false);
      started, recreated, finalized, escalated := 0, 0, 0, 0;
      var i := 0;
      while i < |list|
        invariant i <= |list|
        invariant rep == Pass(w, ledger, list[..i], m, rivals)
        invariant rep.world == State() && !rep.failed && |rep.verdicts| == i
        invariant Summary(rep, Counters(started, recreated, finalized, escalated))
      {
        var done := ScheduledStep(list[i], now, stale);
        rep := ScheduledTurn(w, rep, State(), ledger, list, m, rivals, i, done,
            Counters(started, recreated, finalized, escalated));
        if done.Broken? {
          return started, recreated, finalized, escalated, true;
        }
        started := started + (if done.started then 1 else 0);
        recreated := recreated + (if done.recreated then 1 else 0);
        finalized := finalized + (if done.finalized then 1 else 0);
        escalated := escalated + (if done.escalated then 1 else 0);
        i := i + 1;
      }
      assert list[..|list|] == list;
      SummaryAddsUp(rep, Counters(started, recreated, finalized, escalated));
      failed := false;
    }
  }
}
