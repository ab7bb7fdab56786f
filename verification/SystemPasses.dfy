/** A reconciliation pass is a run of the whole system: whatever is proved of every run holds
    while a reconciler is at work, and after it. */
module SystemPasses {
  import opened Domain
  import opened CommandStore
  import opened ProviderLedger
  import opened Filing
  import opened Protocol
  import opened ProtocolInvariant
  import opened System
  import R = Reconcile

  // ---------- What a reconciler sees ----------

  /** The status under which the workflow database lists a workflow. */
  predicate Lists(status: RunStatus, listed: R.DbosStatus) {
    match status
    case Running => listed == R.Pending || listed == R.Enqueued || listed == R.Delayed
    case Succeeded(_) => listed == R.Success
    case Errored => listed == R.Error
    case Cancelled => listed == R.DbosStatus.Cancelled
  }

  predicate ListedAs(f: FilingKey, wf: Option<Workflow>, run: Option<R.RunInfo>) {
    && (wf.Some? <==> run.Some?)
    && (wf.Some? ==>
          && Lists(wf.value.status, run.value.status)
          && run.value.input == FilingInput(f, wf.value.scenario))
  }

  /** The reconciler's world is this system's: the same store, and a run for every workflow. */
  ghost predicate Represents(sys: Whole, w: R.World) {
    && w.store == sys.store
    && forall f: FilingKey :: ListedAs(f, RuntimeOf(sys.runtimes, f).wf, Lookup(w.runs, WorkflowID(f)))
  }

  // ---------- What it does, as actions of the system ----------

  /** Acting on one verdict. The outcome command is sent, and handled at once; a run that is to
      be started is started by the reconciler or by a rival. */
  function VerdictActions(f: R.Due, v: R.Verdict, who: R.Reconciler, polls: nat, rivals: R.Rivals): seq<Action> {
    match v
    case Healthy => []
    case Escalate => []
    case Finalize(o) => [Action.Reconcile(R.DetailOf(who)), Deliver(OutcomeMsg(o, R.DetailOf(who)), true)]
    case Recreate => [Delete, Start(R.InputStarted(f, rivals).scenario, polls)]
    case StartMissing => [Start(R.InputStarted(f, rivals).scenario, polls)]
  }

  function HappeningsOf(f: FilingKey, actions: seq<Action>): seq<Happening>
    decreases |actions|
  {
    if actions == [] then [] else [Happening(f, actions[0], false)] + HappeningsOf(f, actions[1..])
  }

  function PassHappenings(w: R.World, ledger: R.Ledgers, list: seq<R.Due>, m: R.Mode, polls: nat,
          rivals: R.Rivals): seq<Happening>
    decreases |list|
  {
    if list == [] then []
    else
      var n := |list| - 1;
      var rep := R.Pass(w, ledger, list[..n], m, rivals);
      PassHappenings(w, ledger, list[..n], m, polls, rivals) +
      if rep.failed || !m.apply then []
      else HappeningsOf(list[n].filing,
                        VerdictActions(list[n], R.JudgeIn(rep.world, ledger, list[n], m), m.who, polls, rivals))
  }

  /** Lookups find the filings of the list, and whoever starts their workflows names them. */
  ghost predicate Named(list: seq<R.Due>, rivals: R.Rivals) {
    forall f :: f in list ==> Addressable(f.filing) && R.InputStarted(f, rivals).filing == f.filing
  }

  // ---------- Verdict by verdict ----------

  lemma OneHappening(sys: Whole, f: FilingKey, a: Action)
    ensures RunSystem(sys, HappeningsOf(f, [a])) == Act(sys, f, a, false)
  {
    assert [a][1..] == [];
    assert HappeningsOf(f, [a]) == [Happening(f, a, false)];
    assert HappeningsOf(f, [a])[1..] == [];
  }

  lemma TwoHappenings(sys: Whole, f: FilingKey, a: Action, b: Action)
    ensures RunSystem(sys, HappeningsOf(f, [a, b])) == Act(Act(sys, f, a, false), f, b, false)
  {
    assert [a, b][1..] == [b];
    assert HappeningsOf(f, [a, b])[1..] == HappeningsOf(f, [b]);
    OneHappening(Act(sys, f, a, false), f, b);
  }

  /** A change to one workflow and its run, seen by all filings. */
  lemma RunsMoveTogether(sys: Whole, w: R.World, f: FilingKey, s: State, run: Option<R.RunInfo>)
    requires Represents(sys, w) && ListedAs(f, s.wf, run)
    ensures var runs := if run.Some? then w.runs[WorkflowID(f) := run.value] else w.runs - {WorkflowID(f)};
      Represents(Keep(sys, f, s), w.(runs := runs))
  {
    forall g: FilingKey | g != f
      ensures WorkflowID(g) != WorkflowID(f)
    {
      if WorkflowID(g) == WorkflowID(f) { WorkflowIDsNeverCollide(g, f); }
    }
  }

  lemma StartedRun(sys: Whole, w: R.World, f: R.Due, m: R.Mode, polls: nat, rivals: R.Rivals)
    requires Represents(sys, w) && WorkflowID(f.filing) !in w.runs
    requires R.InputStarted(f, rivals).filing == f.filing
    ensures Represents(Act(sys, f.filing, Start(R.InputStarted(f, rivals).scenario, polls), false),
                       R.StartRun(w, f, m, rivals).world)
  {
    var a := Start(R.InputStarted(f, rivals).scenario, polls);
    var s := Lifecycle(View(sys, f.filing), a);
    assert ListedAs(f.filing, View(sys, f.filing).wf, None);
    RunsMoveTogether(sys, w, f.filing, s, Some(R.FreshRun(R.InputStarted(f, rivals), m.now)));
  }

  lemma DeletedRun(sys: Whole, w: R.World, f: FilingKey)
    requires Represents(sys, w)
    ensures Represents(Act(sys, f, Delete, false), w.(runs := w.runs - {WorkflowID(f)}))
  {
    RunsMoveTogether(sys, w, f, Lifecycle(View(sys, f), Delete), None);
  }

  lemma KeptRuntime(sys: Whole, f: FilingKey, s: State)
    ensures RuntimeOf(Keep(sys, f, s).runtimes, f) == RuntimePart(s)
    ensures forall g: FilingKey :: g != f ==> RuntimeOf(Keep(sys, f, s).runtimes, g) == RuntimeOf(sys.runtimes, g)
  {
    forall g: FilingKey | g != f
      ensures WorkflowID(g) != WorkflowID(f)
    {
      if WorkflowID(g) == WorkflowID(f) { WorkflowIDsNeverCollide(g, f); }
    }
  }

  lemma OutcomeIsSent(sys: Whole, f: FilingKey, o: Outcome, detail: string)
    requires Addressable(f) && Settled(View(sys, f), o) && o != NoOutcome
    ensures Act(sys, f, Action.Reconcile(detail), false) == Keep(sys, f, AddMsg(View(sys, f), OutcomeMsg(o, detail)))
  {
    assert Network(f, View(sys, f), Action.Reconcile(detail)) == AddMsg(View(sys, f), OutcomeMsg(o, detail));
  }

  lemma CommandIsHandled(sys: Whole, f: FilingKey, c: CommandMsg)
    ensures DeliverRequest(sys, f, CommandSent(c), true) ==
              CommandTo(Keep(sys, f, RemoveMsg(View(sys, f), CommandSent(c))), f, c.slot, c.commandType, c.detail).0
  {
  }

  lemma NetworkActs(sys: Whole, f: FilingKey, a: Action)
    requires a.Deliver?
    ensures Act(sys, f, a, false) == ActNetwork(sys, f, a)
  {
  }

  lemma DeliveryActs(sys: Whole, f: FilingKey, a: Action)
    requires a.Deliver? && UnderWay(View(sys, f), a.msg)
    ensures ActNetwork(sys, f, a) == DeliverRequest(sys, f, a.msg, a.saved)
  {
  }

  lemma OutcomeIsDelivered(sys: Whole, f: FilingKey, c: CommandMsg)
    requires UnderWay(View(sys, f), CommandSent(c))
    ensures Act(sys, f, Deliver(CommandSent(c), true), false) ==
              CommandTo(Keep(sys, f, RemoveMsg(View(sys, f), CommandSent(c))), f, c.slot, c.commandType, c.detail).0
  {
    var a := Deliver(CommandSent(c), true);
    NetworkActs(sys, f, a);
    DeliveryActs(sys, f, a);
    CommandIsHandled(sys, f, c);
  }

  /** The outcome command, sent and handled: one transaction, and every workflow as it was. */
  lemma SentAndDelivered(sys: Whole, f: FilingKey, o: Outcome, detail: string)
    requires Addressable(f) && Settled(View(sys, f), o) && o != NoOutcome
    ensures var sys1 := Act(sys, f, Action.Reconcile(detail), false);
      var sys' := Act(sys1, f, Deliver(OutcomeMsg(o, detail), true), false);
      && sys'.store == Apply(sys.store, R.FinalCommand(f, o, detail)).0
      && forall g: FilingKey :: RuntimeOf(sys'.runtimes, g).wf == RuntimeOf(sys.runtimes, g).wf
  {
    var m := OutcomeMsg(o, detail);
    OutcomeIsSent(sys, f, o, detail);
    var sys1 := Keep(sys, f, AddMsg(View(sys, f), m));
    KeepIsLocal(sys, f, AddMsg(View(sys, f), m));
    KeptRuntime(sys, f, AddMsg(View(sys, f), m));
    OutcomeIsDelivered(sys1, f, m.command);
    KeptRuntime(sys1, f, RemoveMsg(View(sys1, f), m));
  }

  /** The provider does not notice any of it. */
  lemma ReconcilersLeaveProvider(sys: Whole, f: FilingKey, a: Action)
    requires a.Reconcile? || a.Delete? || a.Start? || (a.Deliver? && a.msg.CommandSent?)
    ensures Act(sys, f, a, false).provider == sys.provider
  {
    ProviderReacts(sys, f, a, false);
  }

  /** What acting on a verdict must come to: the reconciler's world, the provider as it was. */
  ghost predicate LeadsTo(sys: Whole, happenings: seq<Happening>, w: R.World) {
    var sys' := RunSystem(sys, happenings);
    Represents(sys', w) && sys'.provider == sys.provider
  }

  lemma FinalizedWorld(sys: Whole, sys': Whole, w: R.World, f: R.Due, o: Outcome, m: R.Mode, rivals: R.Rivals)
    requires Represents(sys, w) && sys'.store == Apply(sys.store, R.FinalCommand(f.filing, o, R.DetailOf(m.who))).0
    requires forall g: FilingKey :: RuntimeOf(sys'.runtimes, g).wf == RuntimeOf(sys.runtimes, g).wf
    ensures Represents(sys', R.Enact(w, f, R.Finalize(o), m, rivals).world)
  {
  }

  lemma FinalizeHappens(sys: Whole, f: FilingKey, o: Outcome, detail: string, actions: seq<Action>)
    returns (sys': Whole)
    requires Addressable(f) && Settled(View(sys, f), o) && o != NoOutcome
    requires actions == [Action.Reconcile(detail), Deliver(OutcomeMsg(o, detail), true)]
    ensures sys' == RunSystem(sys, HappeningsOf(f, actions)) && sys'.provider == sys.provider
    ensures sys'.store == Apply(sys.store, R.FinalCommand(f, o, detail)).0
    ensures forall g: FilingKey :: RuntimeOf(sys'.runtimes, g).wf == RuntimeOf(sys.runtimes, g).wf
  {
    var a, b := actions[0], actions[1];
    SentAndDelivered(sys, f, o, detail);
    TwoHappenings(sys, f, a, b);
    ReconcilersLeaveProvider(sys, f, a);
    ReconcilersLeaveProvider(Act(sys, f, a, false), f, b);
    sys' := Act(Act(sys, f, a, false), f, b, false);
  }

  lemma FinalizeIsARun(sys: Whole, w: R.World, f: R.Due, o: Outcome, m: R.Mode, polls: nat, rivals: R.Rivals)
    requires Represents(sys, w) && Addressable(f.filing) && Settled(View(sys, f.filing), o) && o != NoOutcome
    ensures LeadsTo(sys, HappeningsOf(f.filing, VerdictActions(f, R.Finalize(o), m.who, polls, rivals)),
                    R.Enact(w, f, R.Finalize(o), m, rivals).world)
  {
    var actions := VerdictActions(f, R.Finalize(o), m.who, polls, rivals);
    var sys' := FinalizeHappens(sys, f.filing, o, R.DetailOf(m.who), actions);
    FinalizedWorld(sys, sys', w, f, o, m, rivals);
  }

  lemma RecreateIsARun(sys: Whole, w: R.World, f: R.Due, m: R.Mode, polls: nat, rivals: R.Rivals)
    requires Represents(sys, w) && R.InputStarted(f, rivals).filing == f.filing
    ensures LeadsTo(sys, HappeningsOf(f.filing, VerdictActions(f, R.Recreate, m.who, polls, rivals)),
                    R.Enact(w, f, R.Recreate, m, rivals).world)
  {
    var g := f.filing;
    var a, b := Delete, Start(R.InputStarted(f, rivals).scenario, polls);
    TwoHappenings(sys, g, a, b);
    DeletedRun(sys, w, g);
    StartedRun(Act(sys, g, a, false), w.(runs := w.runs - {WorkflowID(g)}), f, m, polls, rivals);
    ReconcilersLeaveProvider(sys, g, a);
    ReconcilersLeaveProvider(Act(sys, g, a, false), g, b);
  }

  lemma StartIsARun(sys: Whole, w: R.World, f: R.Due, m: R.Mode, polls: nat, rivals: R.Rivals)
    requires Represents(sys, w) && R.InputStarted(f, rivals).filing == f.filing
    requires WorkflowID(f.filing) !in w.runs
    ensures LeadsTo(sys, HappeningsOf(f.filing, VerdictActions(f, R.StartMissing, m.who, polls, rivals)),
                    R.Enact(w, f, R.StartMissing, m, rivals).world)
  {
    var a := Start(R.InputStarted(f, rivals).scenario, polls);
    OneHappening(sys, f.filing, a);
    StartedRun(sys, w, f, m, polls, rivals);
    ReconcilersLeaveProvider(sys, f.filing, a);
  }

  lemma VerdictIsSettled(sys: Whole, w: R.World, f: R.Due, m: R.Mode)
    requires Synced(sys.provider)
    ensures var v := R.JudgeIn(w, sys.provider.durable.subs, f, m);
      v.Finalize? ==> Settled(View(sys, f.filing), v.outcome) && v.outcome != NoOutcome
  {
    R.FinalizeIsResolved(w, sys.provider.durable.subs, f, m);
  }

  /** Acting on a verdict is a run of the system, which the provider does not notice. */
  lemma VerdictIsARun(sys: Whole, w: R.World, f: R.Due, m: R.Mode, polls: nat, rivals: R.Rivals)
    requires Synced(sys.provider) && Represents(sys, w)
    requires Addressable(f.filing) && R.InputStarted(f, rivals).filing == f.filing
    ensures var v := R.JudgeIn(w, sys.provider.durable.subs, f, m);
      LeadsTo(sys, HappeningsOf(f.filing, VerdictActions(f, v, m.who, polls, rivals)),
              R.Enact(w, f, v, m, rivals).world)
  {
    match R.JudgeIn(w, sys.provider.durable.subs, f, m)
    case Healthy =>
    case Escalate =>
    case Finalize(o) =>
      VerdictIsSettled(sys, w, f, m);
      FinalizeIsARun(sys, w, f, o, m, polls, rivals);
    case Recreate => RecreateIsARun(sys, w, f, m, polls, rivals);
    case StartMissing => StartIsARun(sys, w, f, m, polls, rivals);
  }

  // ---------- The pass ----------

  lemma {:induction false} RunSystemConcat(sys: Whole, a: seq<Happening>, b: seq<Happening>)
    ensures RunSystem(sys, a + b) == RunSystem(RunSystem(sys, a), b)
    decreases |a|
  {
    if a == [] {
      assert a + b == b;
    } else {
      assert (a + b)[0] == a[0] && (a + b)[1..] == a[1..] + b;
      RunSystemConcat(Act(sys, a[0].filing, a[0].action, a[0].counted), a[1..], b);
    }
  }

  /** A whole pass, finished or broken off, is one run of the system. */
  lemma {:induction false} PassIsARun(sys: Whole, w: R.World, list: seq<R.Due>, m: R.Mode, polls: nat,
          rivals: R.Rivals)
    requires Synced(sys.provider) && Represents(sys, w)
    requires Named(list, rivals)
    ensures var ledger := sys.provider.durable.subs;
      LeadsTo(sys, PassHappenings(w, ledger, list, m, polls, rivals), R.Pass(w, ledger, list, m, rivals).world)
    decreases |list|
  {
    if list != [] {
      var ledger, n := sys.provider.durable.subs, |list| - 1;
      assert Named(list[..n], rivals) by { assert forall f :: f in list[..n] ==> f in list; }
      PassIsARun(sys, w, list[..n], m, polls, rivals);
      var rep := R.Pass(w, ledger, list[..n], m, rivals);
      var before := PassHappenings(w, ledger, list[..n], m, polls, rivals);
      var mid := RunSystem(sys, before);
      if rep.failed || !m.apply {
        assert PassHappenings(w, ledger, list, m, polls, rivals) == before;
      } else {
        var actions := VerdictActions(list[n], R.JudgeIn(rep.world, ledger, list[n], m), m.who, polls, rivals);
        VerdictIsARun(mid, rep.world, list[n], m, polls, rivals);
        RunSystemConcat(sys, before, HappeningsOf(list[n].filing, actions));
      }
    }
  }

  /** So a pass over a reachable system leaves a reachable system, and everything that holds of
      every reachable system holds after it. */
  lemma PassStaysReachable(happenings: seq<Happening>, w: R.World, list: seq<R.Due>, m: R.Mode, polls: nat,
          rivals: R.Rivals)
    requires Represents(RunSystem(NEW_SYSTEM, happenings), w)
    requires Named(list, rivals)
    ensures var ledger := RunSystem(NEW_SYSTEM, happenings).provider.durable.subs;
      exists more: seq<Happening> ::
        Represents(RunSystem(NEW_SYSTEM, happenings + more), R.Pass(w, ledger, list, m, rivals).world)
  {
    var sys := RunSystem(NEW_SYSTEM, happenings);
    NothingIsOwnedAtFirst();
    EntriesStayOwned(NEW_SYSTEM, happenings);
    PassIsARun(sys, w, list, m, polls, rivals);
    var more := PassHappenings(w, sys.provider.durable.subs, list, m, polls, rivals);
    RunSystemConcat(NEW_SYSTEM, happenings, more);
    assert Represents(RunSystem(NEW_SYSTEM, happenings + more),
        R.Pass(w, sys.provider.durable.subs, list, m, rivals).world);
  }
}
