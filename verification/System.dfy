/** All filings together: one command store, one provider and one workflow database, keyed
    by the real identifiers. Every filing, seen alone, behaves as the single-filing
    protocol, so what holds of one filing holds of all of them at once. */
module System {
  import opened Domain
  import opened CommandStore
  import opened ProviderLedger
  import opened Filing
  import opened Protocol
  import opened ProtocolInvariant
  import opened Guarantees
  import opened Runs
  import Reconcile

  /** What belongs to one workflow ID alone. */
  datatype Runtime = Runtime(
    inbox: set<Callback>, wf: Option<Workflow>, past: set<Workflow>, live: Option<Live>,
    commandsOut: multiset<CommandMsg>, postsOut: multiset<Scenario>, faults: nat)

  const NO_RUNTIME := Runtime({}, None, {}, None, multiset{}, multiset{}, 0)

  datatype Whole = Whole(store: Store, provider: Provider, runtimes: map<string, Runtime>)

  const NEW_SYSTEM := Whole(Store(map[], map[]), Provider(EMPTY_LEDGER, EMPTY_LEDGER, map[]), map[])

  // ---------- One filing's view ----------

  function CommandsOf(store: Store, f: FilingKey): map<CommandSlot, CommandRow> {
    map k: CommandSlot | CommandKey(f, k) in store.commands :: store.commands[CommandKey(f, k)]
  }

  function RuntimeOf(runtimes: map<string, Runtime>, f: FilingKey): Runtime {
    if WorkflowID(f) in runtimes then runtimes[WorkflowID(f)] else NO_RUNTIME
  }

  function Compose(row: Option<FilingRow>, commands: map<CommandSlot, CommandRow>, cell: Cell,
          worker: Option<Stage>, r: Runtime): State
  {
    State(row, commands, cell, worker, r.inbox, r.wf, r.past, r.live, r.commandsOut, r.postsOut, r.faults)
  }

  function View(sys: Whole, f: FilingKey): State {
    Compose(Lookup(sys.store.filings, f), CommandsOf(sys.store, f),
            CellOf(sys.provider.memory, ProviderOperationID(f)),
            Lookup(sys.provider.workers, ProviderOperationID(f)),
            RuntimeOf(sys.runtimes, f))
  }

  function RuntimePart(s: State): Runtime {
    Runtime(s.inbox, s.wf, s.past, s.live, s.commandsOut, s.postsOut, s.faults)
  }

  // ---------- The steps, on the shared tables ----------

  /** Writes back what belongs to the workflow ID of one filing. */
  function Keep(sys: Whole, f: FilingKey, s: State): Whole {
    sys.(runtimes := sys.runtimes[WorkflowID(f) := RuntimePart(s)])
  }

  function PostTo(sys: Whole, f: FilingKey, scenario: Scenario, saved: bool): (Whole, Response) {
    var req := SubmissionFor(FilingInput(f, scenario), CALLBACK_URL);
    (sys.(provider := OnSubmit(sys.provider, req, saved)), HandleSubmit(sys.provider.memory, req, saved).1)
  }

  function CommandTo(sys: Whole, f: FilingKey, slot: CommandSlot, t: CommandType, detail: string): (Whole, Reply) {
    var (store, reply) := Apply(sys.store, CommandFor(f, slot, t, detail));
    (sys.(store := store), reply)
  }

  function HandleRequest(sys: Whole, f: FilingKey, saved: bool): Whole
    requires Asking(View(sys, f))
  {
    var s := View(sys, f);
    match RequestOf(f, PositionOf(f, s.wf.value))
    case ReadFiling =>
      if !Addressable(f) then sys
      else Keep(sys, f, WithReply(s, if f in sys.store.filings then Got(FilingRead(sys.store.filings[f]))
          else Failing("filing not found")))
    case Send(slot, t, detail) =>
      var (sys', reply) := CommandTo(sys, f, slot, t, detail);
      Keep(sys', f, WithReply(s, ReplyToCommand(reply)))
    case ReadStatus(id) =>
      if !Addressable(f) then sys
      else Keep(sys, f, WithReply(s, Got(StatusRead(StatusOf(Lookup(sys.provider.memory.subs, id), id)))))
    case PostSubmission =>
      var (sys', response) := PostTo(sys, f, s.wf.value.scenario, saved);
      Keep(sys', f, WithReply(s, ReplyToPost(Some(response))))
    case Receive => sys
    case Nothing => sys
  }

  function DeliverRequest(sys: Whole, f: FilingKey, m: Msg, saved: bool): Whole {
    var sys' := Keep(sys, f, RemoveMsg(View(sys, f), m));
    match m
    case CommandSent(c) => CommandTo(sys', f, c.slot, c.commandType, c.detail).0
    case PostSent(scenario) => PostTo(sys', f, scenario, saved).0
  }

  predicate AtProvider(a: Action) {
    a.Fire? || a.CallBack? || a.FinishCallback? || a.GiveUp? || a.RestartProvider?
  }

  /** What an action of the provider's own goroutine, or its restart, is for the provider.
      `counted` says whether the write of a delivered callback's metric succeeded. */
  function EventOf(f: FilingKey, a: Action, counted: bool): Event
    requires AtProvider(a)
  {
    var id := ProviderOperationID(f);
    match a
    case Fire(saved) => Event.Fire(id, saved)
    case CallBack(_) => Event.Delivered(id, counted)
    case FinishCallback(saved) => Event.Finished(id, saved)
    case GiveUp => Event.GaveUp(id)
    case RestartProvider => Event.Restart
  }

  function ReactTo(sys: Whole, e: Event): Whole {
    sys.(provider := React(sys.provider, e))
  }

  function Plant(sys: Whole, f: FilingKey, scenario: Scenario): Whole {
    sys.(store := sys.store.(filings := sys.store.filings[f := FilingRow(scenario, Ready, None)]))
  }

  function ActExecution(sys: Whole, f: FilingKey, a: Action): Whole
    requires IsExecution(a)
  {
    var s := View(sys, f);
    if !a.Handle? then Keep(sys, f, Execute(f, s, a))
    else if Asking(s) then HandleRequest(sys, f, a.saved)
    else sys
  }

  function ActNetwork(sys: Whole, f: FilingKey, a: Action): Whole
    requires IsNetwork(a)
  {
    var s := View(sys, f);
    if !a.Deliver? then Keep(sys, f, Network(f, s, a))
    else if UnderWay(s, a.msg) then DeliverRequest(sys, f, a.msg, a.saved)
    else sys
  }

  /** A callback to a workflow that does not exist is refused; a restart of the provider
      concerns every filing. */
  function ActService(sys: Whole, f: FilingKey, a: Action, counted: bool): Whole
    requires !IsExecution(a) && !IsLifecycle(a) && !IsNetwork(a)
  {
    var s := View(sys, f);
    if a.Seed? then
      if s.commands == map[] then Plant(sys, f, a.scenario) else sys
    else if a.CallBack? then
      if s.wf.Some? then ReactTo(Keep(sys, f, CallBackOnce(f, s, a.second)), EventOf(f, a, counted)) else sys
    else ReactTo(sys, EventOf(f, a, counted))
  }

  /** One action of one filing. */
  function Act(sys: Whole, f: FilingKey, a: Action, counted: bool): Whole {
    if IsExecution(a) then ActExecution(sys, f, a)
    else if IsLifecycle(a) then Keep(sys, f, Lifecycle(View(sys, f), a))
    else if IsNetwork(a) then ActNetwork(sys, f, a)
    else ActService(sys, f, a, counted)
  }

  datatype Happening = Happening(filing: FilingKey, action: Action, counted: bool)

  function RunSystem(sys: Whole, happenings: seq<Happening>): Whole
    decreases |happenings|
  {
    if happenings == [] then sys
    else RunSystem(Act(sys, happenings[0].filing, happenings[0].action, happenings[0].counted), happenings[1..])
  }

  // ---------- What every reachable system keeps ----------

  ghost predicate SystemInv(sys: Whole) {
    && Synced(sys.provider)
    && (forall f: FilingKey :: Inv(f, View(sys, f)))
  }

  /** Both halves of a step's locality: the acting filing takes the protocol step, and every
      other filing's view stays as it is. */
  ghost predicate LocalStep(sys: Whole, sys': Whole, f: FilingKey, s': State) {
    && View(sys', f) == s'
    && (forall g: FilingKey :: g != f ==> View(sys', g) == View(sys, g))
  }

  lemma KeepIsLocal(sys: Whole, f: FilingKey, s: State)
    ensures View(Keep(sys, f, s), f) == Compose(View(sys, f).row, View(sys, f).commands, View(sys, f).cell,
        View(sys, f).worker, RuntimePart(s))
    ensures forall g: FilingKey :: g != f ==> View(Keep(sys, f, s), g) == View(sys, g)
  {
    forall g: FilingKey | g != f
      ensures View(Keep(sys, f, s), g) == View(sys, g)
    {
      if WorkflowID(g) == WorkflowID(f) { WorkflowIDsNeverCollide(g, f); }
    }
  }

  /** No filing ever stores another filing's provider operation ID. */
  lemma OperationsAreOwn(sys: Whole, f: FilingKey, slot: CommandSlot, t: CommandType, detail: string)
    requires SystemInv(sys)
    ensures t == PrepareFilingSubmission ==> !Taken(sys.store, CommandFor(f, slot, t, detail))
  {
    forall g | g in sys.store.filings && g != f
      ensures sys.store.filings[g].providerOperation != Some(ProviderOperationID(f))
    {
      assert Inv(g, View(sys, g));
      assert View(sys, g).row == Some(sys.store.filings[g]);
      if ProviderOperationID(g) == ProviderOperationID(f) { WorkflowIDsNeverCollide(g, f); }
    }
  }

  /** So whatever row of another filing a lookup finds, it cannot pass for this one's intent. */
  lemma OtherRowsAreForeign(sys: Whole, f: FilingKey, g: FilingKey)
    requires SystemInv(sys) && g in sys.store.filings && g != f
    ensures Foreign(f, sys.store.filings[g])
  {
    assert Inv(g, View(sys, g));
    assert View(sys, g).row == Some(sys.store.filings[g]);
    assert ProviderOperationID(g)[0] == 'f';
    if ProviderOperationID(g) == ProviderOperationID(f) { WorkflowIDsNeverCollide(g, f); }
  }

  /** A new or updated command row is seen by its own filing, under its own slot, only. */
  lemma CommandRowIsLocal(store: Store, f: FilingKey, slot: CommandSlot, c: CommandRow, g: FilingKey)
    ensures var store' := store.(commands := store.commands[CommandKey(f, slot) := c]);
      CommandsOf(store', g) == if g == f then CommandsOf(store, f)[slot := c] else CommandsOf(store, g)
  {
    forall k: CommandSlot
      ensures CommandKey(g, k) == CommandKey(f, slot) ==> g == f && k == slot
    {
      if CommandKey(g, k) == CommandKey(f, slot) { CommandKeysNeverCollide(g, k, f, slot); }
    }
  }

  /** What a transaction decides does not depend on other filings, unless one of them owns
      the operation ID it declares; and it never removes a row. */
  lemma DecisionIsLocal(slot: Slot, req: CommandRequest, taken: bool)
    requires req.commandType == PrepareFilingSubmission ==> !taken
    ensures Decide(slot, req, taken) == Decide(slot, req, false)
    ensures slot.row.Some? ==> Decide(slot, req, taken).0.row.Some?
    ensures slot.command.Some? ==> Decide(slot, req, taken).0.command.Some?
    ensures Decide(slot, req, taken).0.row.Some? ==> slot.row.Some?
  {
  }

  function WriteBack(store: Store, f: FilingKey, key: string, after: Slot): Store {
    Store(if after.row.Some? then store.filings[f := after.row.value] else store.filings,
          if after.command.Some? then store.commands[key := after.command.value] else store.commands)
  }

  /** Writing back the two rows of a transaction, as every filing sees it. */
  lemma RowsAreLocal(store: Store, f: FilingKey, slot: CommandSlot, after: Slot, g: FilingKey)
    requires f in store.filings ==> after.row.Some?
    requires CommandKey(f, slot) in store.commands ==> after.command.Some?
    ensures var store' := WriteBack(store, f, CommandKey(f, slot), after);
      && Lookup(store'.filings, g) == (if g == f then after.row else Lookup(store.filings, g))
      && CommandsOf(store', g) ==
           (if g == f && after.command.Some? then CommandsOf(store, f)[slot := after.command.value]
               else CommandsOf(store, g))
  {
    var store' := WriteBack(store, f, CommandKey(f, slot), after);
    if after.command.Some? {
      CommandRowIsLocal(store, f, slot, after.command.value, g);
      assert CommandsOf(store', g) == CommandsOf(store.(commands := store'.commands), g);
    } else {
      assert CommandsOf(store', g) == CommandsOf(store, g);
    }
  }

  lemma DecidedRowsAreLocal(sys: Whole, f: FilingKey, slot: CommandSlot, d: (Slot, Reply))
    requires f in sys.store.filings ==> d.0.row.Some?
    requires CommandKey(f, slot) in sys.store.commands ==> d.0.command.Some?
    ensures var s := View(sys, f);
      LocalStep(sys, sys.(store := WriteBack(sys.store, f, CommandKey(f, slot), d.0)), f,
        s.(row := d.0.row, commands := if d.0.command.Some? then s.commands[slot := d.0.command.value] else s.commands))
  {
    forall g: FilingKey {
      RowsAreLocal(sys.store, f, slot, d.0, g);
    }
  }

  lemma CommandIsLocal(sys: Whole, f: FilingKey, slot: CommandSlot, t: CommandType, detail: string)
    requires t == PrepareFilingSubmission ==> !Taken(sys.store, CommandFor(f, slot, t, detail))
    ensures var (sys', reply) := CommandTo(sys, f, slot, t, detail);
      var (s', reply') := HandleCommand(f, View(sys, f), slot, t, detail);
      && reply == reply' && LocalStep(sys, sys', f, s')
      && sys'.provider == sys.provider && sys'.runtimes == sys.runtimes
  {
    var req := CommandFor(f, slot, t, detail);
    var before := SlotOf(sys.store, req);
    assert before == Slot(View(sys, f).row, Lookup(View(sys, f).commands, slot));
    DecisionIsLocal(before, req, Taken(sys.store, req));
    DecidedRowsAreLocal(sys, f, slot, Decide(before, req, false));
  }

  ghost predicate SameElsewhere(p: Provider, p': Provider, id: string) {
    forall other :: other != id ==>
      && CellOf(p'.memory, other) == CellOf(p.memory, other)
      && Lookup(p'.workers, other) == Lookup(p.workers, other)
  }

  /** A change to one operation at the provider is seen by its own filing only. */
  lemma ProviderIsLocal(sys: Whole, f: FilingKey, p': Provider)
    requires SameElsewhere(sys.provider, p', ProviderOperationID(f))
    ensures forall g: FilingKey :: g != f ==> View(sys.(provider := p'), g) == View(sys, g)
  {
    forall g: FilingKey | g != f
      ensures View(sys.(provider := p'), g) == View(sys, g)
    {
      if ProviderOperationID(g) == ProviderOperationID(f) { WorkflowIDsNeverCollide(g, f); }
    }
  }

  lemma SubmitAtProvider(p: Provider, req: SubmitRequest, saved: bool)
    requires req.id != ""
    ensures var p' := OnSubmit(p, req, saved);
      && SameElsewhere(p, p', req.id)
      && CellOf(p'.memory, req.id) == (if saved then Post(CellOf(p.memory, req.id), req).cell
          else CellOf(p.memory, req.id))
      && HandleSubmit(p.memory, req, saved).1 ==
          (if saved then Post(CellOf(p.memory, req.id), req).response else LedgerUnavailable)
      && Lookup(p'.workers, req.id) ==
           (if CellOf(p.memory, req.id).entry.None? && CellOf(p'.memory, req.id).entry.Some?
               && !CellOf(p'.memory, req.id).entry.value.callbackFinished then Some(Waiting)
                   else Lookup(p.workers, req.id))
  {
    forall other | other != req.id
      ensures saved ==> CellOf(Attempt(p.memory, req).0, other) == CellOf(p.memory, other)
    {
      SubmitIsLocal(p.memory, req, other);
    }
    SubmitIsLocal(p.memory, req, req.id);
  }

  lemma PostIsLocal(sys: Whole, f: FilingKey, scenario: Scenario, saved: bool)
    ensures var (sys', response) := PostTo(sys, f, scenario, saved);
      var (s', response') := HandlePost(f, View(sys, f), scenario, saved);
      && response == response' && LocalStep(sys, sys', f, s')
      && sys'.store == sys.store && sys'.runtimes == sys.runtimes
  {
    var req := SubmissionFor(FilingInput(f, scenario), CALLBACK_URL);
    assert req.id[0] == 'f';
    SubmitAtProvider(sys.provider, req, saved);
    ProviderIsLocal(sys, f, OnSubmit(sys.provider, req, saved));
  }

  /** Writing the runtime back after a local step. */
  lemma KeepAfter(sys: Whole, mid: Whole, f: FilingKey, s: State, r: State)
    requires LocalStep(sys, mid, f, s)
    ensures LocalStep(sys, Keep(mid, f, r), f, Compose(s.row, s.commands, s.cell, s.worker, RuntimePart(r)))
  {
    KeepIsLocal(mid, f, r);
  }

  lemma HandleIsLocal(sys: Whole, f: FilingKey, saved: bool)
    requires SystemInv(sys) && Asking(View(sys, f))
    ensures LocalStep(sys, HandleRequest(sys, f, saved), f, HandleCurrent(f, View(sys, f), saved))
  {
    var s := View(sys, f);
    var at := PositionOf(f, s.wf.value);
    assert Inv(f, s);
    assert WorkflowOk(f, s, s.wf.value);
    RequestsAreJustified(f, s, at);
    match RequestOf(f, at)
    case ReadFiling =>
      if Addressable(f) { KeepAfter(sys, sys, f, s, WithReply(s, LookUp(f, s, ReadFiling))); }
    case Send(slot, t, detail) =>
      OperationsAreOwn(sys, f, slot, t, detail);
      CommandIsLocal(sys, f, slot, t, detail);
      var (mid, reply) := CommandTo(sys, f, slot, t, detail);
      KeepAfter(sys, mid, f, HandleCommand(f, s, slot, t, detail).0, WithReply(s, ReplyToCommand(reply)));
    case ReadStatus(id) =>
      if Addressable(f) { KeepAfter(sys, sys, f, s, WithReply(s, LookUp(f, s, ReadStatus(id)))); }
    case PostSubmission =>
      PostIsLocal(sys, f, s.wf.value.scenario, saved);
      var (mid, response) := PostTo(sys, f, s.wf.value.scenario, saved);
      KeepAfter(sys, mid, f, HandlePost(f, s, s.wf.value.scenario, saved).0, WithReply(s, ReplyToPost(Some(response))));
    case _ =>
  }

  lemma DeliverIsLocal(sys: Whole, f: FilingKey, m: Msg, saved: bool)
    requires SystemInv(sys)
    ensures LocalStep(sys, DeliverRequest(sys, f, m, saved), f, HandleMsg(f, RemoveMsg(View(sys, f), m), m, saved))
  {
    var s := View(sys, f);
    var mid := Keep(sys, f, RemoveMsg(s, m));
    KeepIsLocal(sys, f, RemoveMsg(s, m));
    assert View(mid, f) == RemoveMsg(s, m);
    match m
    case CommandSent(c) =>
      OperationsAreOwn(sys, f, c.slot, c.commandType, c.detail);
      CommandIsLocal(mid, f, c.slot, c.commandType, c.detail);
    case PostSent(scenario) => PostIsLocal(mid, f, scenario, saved);
  }

  /** An entry of the ledger, replaced in place. */
  lemma EntryIsLocal(l: Ledger, id: string, e: Entry)
    ensures CellOf(WithEntry(l, id, e), id) == CellOf(l, id).(entry := Some(e))
    ensures forall other :: other != id ==> CellOf(WithEntry(l, id, e), other) == CellOf(l, other)
  {
  }

  /** What a goroutine does to its own operation is a step of its own filing. */
  lemma WorkerStepIsLocal(sys: Whole, f: FilingKey, p': Provider, s': State)
    requires SameElsewhere(sys.provider, p', ProviderOperationID(f))
    requires s' == View(sys, f).(cell := s'.cell, worker := s'.worker)
    requires s'.cell == CellOf(p'.memory, ProviderOperationID(f))
    requires s'.worker == Lookup(p'.workers, ProviderOperationID(f))
    ensures LocalStep(sys, sys.(provider := p'), f, s')
  {
    ProviderIsLocal(sys, f, p');
  }

  lemma FireAtProvider(p: Provider, id: string, s: State, saved: bool)
    requires s.cell == CellOf(p.memory, id) && s.worker == Lookup(p.workers, id)
    ensures var p' := OnFire(p, id, saved); var s' := FireWorker(s, saved);
      && CellOf(p'.memory, id) == s'.cell && Lookup(p'.workers, id) == s'.worker
      && SameElsewhere(p, p', id)
  {
    if id in p.memory.subs {
      EntryIsLocal(p.memory, id, Complete(p.memory.subs[id]));
    }
  }

  lemma FireIsLocal(sys: Whole, f: FilingKey, saved: bool)
    ensures LocalStep(sys, ReactTo(sys, Event.Fire(ProviderOperationID(f), saved)), f, FireWorker(View(sys, f), saved))
  {
    FireAtProvider(sys.provider, ProviderOperationID(f), View(sys, f), saved);
    WorkerStepIsLocal(sys, f, OnFire(sys.provider, ProviderOperationID(f), saved), FireWorker(View(sys, f), saved));
  }

  lemma FinishAtProvider(p: Provider, id: string, s: State, saved: bool)
    requires s.cell == CellOf(p.memory, id) && s.worker == Lookup(p.workers, id)
    ensures var p' := OnFinished(p, id, saved); var s' := FinishWorker(s, saved);
      && CellOf(p'.memory, id) == s'.cell && Lookup(p'.workers, id) == s'.worker
      && SameElsewhere(p, p', id)
  {
    if id in p.memory.subs {
      EntryIsLocal(p.memory, id, p.memory.subs[id].(callbackFinished := saved));
    }
  }

  lemma FinishIsLocal(sys: Whole, f: FilingKey, saved: bool)
    ensures LocalStep(sys, ReactTo(sys, Event.Finished(ProviderOperationID(f), saved)), f,
        FinishWorker(View(sys, f), saved))
  {
    FinishAtProvider(sys.provider, ProviderOperationID(f), View(sys, f), saved);
    WorkerStepIsLocal(sys, f, OnFinished(sys.provider, ProviderOperationID(f), saved),
        FinishWorker(View(sys, f), saved));
  }

  lemma GiveUpIsLocal(sys: Whole, f: FilingKey)
    ensures LocalStep(sys, ReactTo(sys, Event.GaveUp(ProviderOperationID(f))), f, View(sys, f).(worker := None))
  {
    ProviderIsLocal(sys, f, StopWorker(sys.provider, ProviderOperationID(f)));
  }

  lemma WorkerIsLocal(sys: Whole, f: FilingKey, a: Action, counted: bool)
    requires a.Fire? || a.FinishCallback? || a.GiveUp?
    ensures LocalStep(sys, ReactTo(sys, EventOf(f, a, counted)), f, AtServices(f, View(sys, f), a))
  {
    match a
    case Fire(saved) => FireIsLocal(sys, f, saved);
    case FinishCallback(saved) => FinishIsLocal(sys, f, saved);
    case GiveUp => GiveUpIsLocal(sys, f);
  }

  lemma CallBackIsLocal(sys: Whole, f: FilingKey, second: bool, counted: bool)
    ensures var s := View(sys, f); var id := ProviderOperationID(f);
      LocalStep(sys, ReactTo(Keep(sys, f, CallBackOnce(f, s, second)), Event.Delivered(id, counted)), f,
          CallBackOnce(f, s, second))
  {
    var s, id := View(sys, f), ProviderOperationID(f);
    var mid := Keep(sys, f, CallBackOnce(f, s, second));
    var p' := OnDelivered(sys.provider, id, counted);
    KeepIsLocal(sys, f, CallBackOnce(f, s, second));
    assert SameElsewhere(sys.provider, p', id) && CellOf(p'.memory, id) == CellOf(sys.provider.memory, id);
    ProviderIsLocal(mid, f, p');
  }

  lemma SeedIsLocal(sys: Whole, f: FilingKey, scenario: Scenario)
    ensures LocalStep(sys, Plant(sys, f, scenario), f, View(sys, f).(row := Some(FilingRow(scenario, Ready, None))))
  {
    var sys' := Plant(sys, f, scenario);
    forall g: FilingKey
      ensures CommandsOf(sys'.store, g) == CommandsOf(sys.store, g)
    {
    }
  }

  /** A step that only concerns the workflow's own runtime. */
  lemma RuntimeIsLocal(sys: Whole, f: FilingKey, s': State)
    requires Undisturbed(View(sys, f), s')
    ensures LocalStep(sys, Keep(sys, f, s'), f, s')
  {
    KeepIsLocal(sys, f, s');
  }

  lemma ExecutionIsLocal(sys: Whole, f: FilingKey, a: Action)
    requires SystemInv(sys) && IsExecution(a)
    ensures LocalStep(sys, ActExecution(sys, f, a), f, Execute(f, View(sys, f), a))
  {
    var s := View(sys, f);
    if !a.Handle? {
      ExecutionIsInvisible(f, s, a);
      RuntimeIsLocal(sys, f, Execute(f, s, a));
    } else if Asking(s) {
      HandleIsLocal(sys, f, a.saved);
    }
  }

  lemma LifecycleIsLocal(sys: Whole, f: FilingKey, a: Action)
    requires IsLifecycle(a)
    ensures LocalStep(sys, Keep(sys, f, Lifecycle(View(sys, f), a)), f, Lifecycle(View(sys, f), a))
  {
    LifecycleIsInvisible(View(sys, f), a);
    RuntimeIsLocal(sys, f, Lifecycle(View(sys, f), a));
  }

  lemma NetworkIsLocal(sys: Whole, f: FilingKey, a: Action)
    requires SystemInv(sys) && IsNetwork(a)
    ensures LocalStep(sys, ActNetwork(sys, f, a), f, Network(f, View(sys, f), a))
  {
    var s := View(sys, f);
    if !a.Deliver? {
      NetworkIsInvisible(f, s, a);
      RuntimeIsLocal(sys, f, Network(f, s, a));
    } else if UnderWay(s, a.msg) {
      DeliverIsLocal(sys, f, a.msg, a.saved);
    }
  }

  lemma ServiceIsLocal(sys: Whole, f: FilingKey, a: Action, counted: bool)
    requires !IsExecution(a) && !IsLifecycle(a) && !IsNetwork(a) && !a.RestartProvider?
    ensures LocalStep(sys, ActService(sys, f, a, counted), f, AtServices(f, View(sys, f), a))
  {
    if a.Seed? {
      SeedIsLocal(sys, f, a.scenario);
    } else if a.CallBack? {
      CallBackIsLocal(sys, f, a.second, counted);
    } else {
      WorkerIsLocal(sys, f, a, counted);
    }
  }

  /** One filing's action is one protocol step for it, and nothing for every other filing,
      although all of them share the tables of both services. */
  lemma ActionsAreLocal(sys: Whole, f: FilingKey, a: Action, counted: bool)
    requires SystemInv(sys) && !a.RestartProvider?
    ensures LocalStep(sys, Act(sys, f, a, counted), f, Step(f, View(sys, f), a))
  {
    if IsExecution(a) {
      ExecutionIsLocal(sys, f, a);
    } else if IsLifecycle(a) {
      LifecycleIsLocal(sys, f, a);
    } else if IsNetwork(a) {
      NetworkIsLocal(sys, f, a);
    } else {
      ServiceIsLocal(sys, f, a, counted);
    }
  }

  /** A restart of the provider is a restart for every filing. */
  lemma RestartIsGlobal(sys: Whole, g: FilingKey)
    requires Synced(sys.provider)
    ensures View(ReactTo(sys, Event.Restart), g) == ResumeWorker(View(sys, g))
  {
    var id, l := ProviderOperationID(g), sys.provider.durable;
    assert Lookup(Resumed(l), id) == ResumeWorker(View(sys, g)).worker;
  }

  /** What an action of `f` is, for `g`. */
  function LocalAction(f: FilingKey, a: Action, g: FilingKey): seq<Action> {
    if f == g || a.RestartProvider? then [a] else []
  }

  function LocalActions(happenings: seq<Happening>, g: FilingKey): seq<Action>
    decreases |happenings|
  {
    if happenings == [] then []
    else LocalAction(happenings[0].filing, happenings[0].action, g) + LocalActions(happenings[1..], g)
  }

  /** The POST, if any, that an action brings to the provider. */
  function PostOf(f: FilingKey, s: State, a: Action): Option<Event> {
    if a.Handle? && Asking(s) && RequestOf(f, PositionOf(f, s.wf.value)) == PostSubmission then
      Some(Event.Submit(SubmissionFor(FilingInput(f, s.wf.value.scenario), CALLBACK_URL), a.saved))
    else if a.Deliver? && UnderWay(s, a.msg) && a.msg.PostSent? then
      Some(Event.Submit(SubmissionFor(FilingInput(f, a.msg.scenario), CALLBACK_URL), a.saved))
    else None
  }

  /** What an action is for the provider: one of its own events, or nothing. */
  function ProviderEvent(sys: Whole, f: FilingKey, a: Action, counted: bool): Option<Event> {
    if IsExecution(a) || IsNetwork(a) then PostOf(f, View(sys, f), a)
    else if IsLifecycle(a) || a.Seed? || (a.CallBack? && View(sys, f).wf.None?) then None
    else Some(EventOf(f, a, counted))
  }

  lemma ProviderReactsToHandle(sys: Whole, f: FilingKey, saved: bool)
    requires Asking(View(sys, f))
    ensures var s := View(sys, f);
      HandleRequest(sys, f, saved).provider ==
        if RequestOf(f, PositionOf(f, s.wf.value)) == PostSubmission
        then PostTo(sys, f, s.wf.value.scenario, saved).0.provider else sys.provider
  {
  }

  lemma ProviderReactsToExecution(sys: Whole, f: FilingKey, a: Action)
    requires IsExecution(a)
    ensures var e := PostOf(f, View(sys, f), a);
      ActExecution(sys, f, a).provider == if e.Some? then React(sys.provider, e.value) else sys.provider
  {
    if a.Handle? && Asking(View(sys, f)) {
      ProviderReactsToHandle(sys, f, a.saved);
    }
  }

  lemma ProviderReactsToNetwork(sys: Whole, f: FilingKey, a: Action)
    requires IsNetwork(a)
    ensures var e := PostOf(f, View(sys, f), a);
      ActNetwork(sys, f, a).provider == if e.Some? then React(sys.provider, e.value) else sys.provider
  {
  }

  lemma ProviderReactsToService(sys: Whole, f: FilingKey, a: Action, counted: bool)
    requires !IsExecution(a) && !IsLifecycle(a) && !IsNetwork(a)
    ensures var e := ProviderEvent(sys, f, a, counted);
      ActService(sys, f, a, counted).provider == if e.Some? then React(sys.provider, e.value) else sys.provider
  {
  }

  lemma ProviderReacts(sys: Whole, f: FilingKey, a: Action, counted: bool)
    ensures var e := ProviderEvent(sys, f, a, counted);
      Act(sys, f, a, counted).provider == if e.Some? then React(sys.provider, e.value) else sys.provider
  {
    if IsExecution(a) {
      ProviderReactsToExecution(sys, f, a);
    } else if IsNetwork(a) {
      ProviderReactsToNetwork(sys, f, a);
    } else if !IsLifecycle(a) {
      ProviderReactsToService(sys, f, a, counted);
    }
  }

  lemma ProviderStaysSynced(sys: Whole, f: FilingKey, a: Action, counted: bool)
    requires Synced(sys.provider)
    ensures Synced(Act(sys, f, a, counted).provider)
  {
    ProviderReacts(sys, f, a, counted);
    var e := ProviderEvent(sys, f, a, counted);
    if e.Some? { ReactKeeps(sys.provider, e.value, Uncounted(0, 0)); }
  }

  lemma LocalStepViews(sys: Whole, sys': Whole, f: FilingKey, s': State, g: FilingKey)
    requires LocalStep(sys, sys', f, s')
    ensures View(sys', g) == if f == g then s' else View(sys, g)
  {
  }

  lemma RestartIsARestart(sys: Whole, f: FilingKey, counted: bool)
    ensures Act(sys, f, RestartProvider, counted) == ReactTo(sys, Event.Restart)
  {
  }

  lemma RestartIsAStep(g: FilingKey, s: State)
    ensures Step(g, s, RestartProvider) == ResumeWorker(s)
  {
  }

  lemma RestartMovesAll(sys: Whole, f: FilingKey, counted: bool, g: FilingKey)
    requires Synced(sys.provider)
    ensures View(Act(sys, f, RestartProvider, counted), g) == Step(g, View(sys, g), RestartProvider)
  {
    RestartIsARestart(sys, f, counted);
    RestartIsGlobal(sys, g);
    RestartIsAStep(g, View(sys, g));
  }

  /** Every action is a protocol step for its own filing, a restart for all of them when it
      restarts the provider, and nothing otherwise. */
  lemma ViewsMoveLocally(sys: Whole, f: FilingKey, a: Action, counted: bool, g: FilingKey)
    requires SystemInv(sys)
    ensures View(Act(sys, f, a, counted), g) ==
      if f == g || a.RestartProvider? then Step(g, View(sys, g), a) else View(sys, g)
  {
    if a.RestartProvider? {
      RestartMovesAll(sys, f, counted, g);
    } else {
      ActionsAreLocal(sys, f, a, counted);
      LocalStepViews(sys, Act(sys, f, a, counted), f, Step(f, View(sys, f), a), g);
    }
  }

  lemma ViewStep(sys: Whole, f: FilingKey, a: Action, counted: bool, g: FilingKey)
    requires SystemInv(sys)
    ensures View(Act(sys, f, a, counted), g) == RunAll(g, View(sys, g), LocalAction(f, a, g))
    ensures Inv(g, View(Act(sys, f, a, counted), g))
  {
    var s := View(sys, g);
    assert Inv(g, s);
    ViewsMoveLocally(sys, f, a, counted, g);
    StepKeepsInv(g, s, a);
    OneAction(g, s, a);
  }

  lemma ActKeepsSystemInv(sys: Whole, f: FilingKey, a: Action, counted: bool)
    requires SystemInv(sys)
    ensures SystemInv(Act(sys, f, a, counted))
  {
    ProviderStaysSynced(sys, f, a, counted);
    forall g: FilingKey
      ensures Inv(g, View(Act(sys, f, a, counted), g))
    {
      ViewStep(sys, f, a, counted, g);
    }
  }

  /** Composition: in any run of the whole system each filing goes through a run of the
      single-filing protocol, made of its own actions and the provider's restarts. */
  lemma {:induction false} EveryFilingRunsTheProtocol(sys: Whole, happenings: seq<Happening>, g: FilingKey)
    requires SystemInv(sys)
    ensures SystemInv(RunSystem(sys, happenings))
    ensures View(RunSystem(sys, happenings), g) == RunAll(g, View(sys, g), LocalActions(happenings, g))
    decreases |happenings|
  {
    if happenings != [] {
      var h := happenings[0];
      var sys' := Act(sys, h.filing, h.action, h.counted);
      ViewStep(sys, h.filing, h.action, h.counted, g);
      ActKeepsSystemInv(sys, h.filing, h.action, h.counted);
      EveryFilingRunsTheProtocol(sys', happenings[1..], g);
      RunConcat(g, View(sys, g), LocalAction(h.filing, h.action, g), LocalActions(happenings[1..], g));
    }
  }

  lemma NewSystemIsNew(f: FilingKey)
    ensures View(NEW_SYSTEM, f) == NEW_FILING
  {
    assert CommandsOf(NEW_SYSTEM.store, f) == map[];
  }

  lemma NewFilingIsOk(f: FilingKey, s: State)
    requires s == NEW_FILING
    ensures Inv(f, s)
  {
  }

  lemma NewViewIsOk(sys: Whole, g: FilingKey)
    requires sys == NEW_SYSTEM
    ensures Inv(g, View(sys, g))
  {
    NewSystemIsNew(g);
    NewFilingIsOk(g, View(sys, g));
  }

  lemma NewSystemIsSound(sys: Whole)
    requires sys == NEW_SYSTEM
    ensures SystemInv(sys)
  {
    EmptyLedgerIsSound();
    forall g: FilingKey {
      NewViewIsOk(sys, g);
    }
  }

  lemma ReachedFrom(sys: Whole, happenings: seq<Happening>, f: FilingKey)
    requires SystemInv(sys) && View(sys, f) == NEW_FILING
    ensures SystemInv(RunSystem(sys, happenings))
    ensures View(RunSystem(sys, happenings), f) == Reached(f, LocalActions(happenings, f))
  {
    EveryFilingRunsTheProtocol(sys, happenings, f);
  }

  lemma ReachedView(happenings: seq<Happening>, f: FilingKey)
    ensures SystemInv(RunSystem(NEW_SYSTEM, happenings))
    ensures View(RunSystem(NEW_SYSTEM, happenings), f) == Reached(f, LocalActions(happenings, f))
  {
    NewSystemIsSound(NEW_SYSTEM);
    NewSystemIsNew(f);
    ReachedFrom(NEW_SYSTEM, happenings, f);
  }

  // ---------- Whole-system guarantees ----------

  /** Every entry of the ledger is the operation of some filing. */
  ghost predicate Owned(l: Ledger) {
    forall id :: id in l.subs ==> exists f: FilingKey :: ProviderOperationID(f) == id
  }

  /** The only ID an event can add is the one it submits. */
  lemma NewEntriesAreSubmitted(p: Provider, e: Event, id: string)
    requires Synced(p) && id in React(p, e).memory.subs
    ensures id in p.memory.subs || (e.Submit? && e.req.id == id)
  {
    if e.Submit? && e.saved && e.req.id != "" && e.req.id != id {
      SubmitIsLocal(p.memory, e.req, id);
    }
  }

  lemma SubmissionsAreOwn(sys: Whole, f: FilingKey, a: Action, counted: bool)
    ensures var e := ProviderEvent(sys, f, a, counted);
      e.Some? && e.value.Submit? ==> e.value.req.id == ProviderOperationID(f)
  {
  }

  lemma NewEntriesAreOwned(sys: Whole, f: FilingKey, a: Action, counted: bool)
    requires Synced(sys.provider) && Owned(sys.provider.memory)
    ensures Owned(Act(sys, f, a, counted).provider.memory)
  {
    ProviderReacts(sys, f, a, counted);
    var e := ProviderEvent(sys, f, a, counted);
    SubmissionsAreOwn(sys, f, a, counted);
    forall id | id in Act(sys, f, a, counted).provider.memory.subs
      ensures exists g: FilingKey :: ProviderOperationID(g) == id
    {
      if e.Some? { NewEntriesAreSubmitted(sys.provider, e.value, id); }
      assert id in sys.provider.memory.subs || id == ProviderOperationID(f);
    }
  }

  lemma {:induction false} EntriesStayOwned(sys: Whole, happenings: seq<Happening>)
    requires Synced(sys.provider) && Owned(sys.provider.memory)
    ensures Synced(RunSystem(sys, happenings).provider)
    ensures Owned(RunSystem(sys, happenings).provider.memory)
    decreases |happenings|
  {
    if happenings != [] {
      var h := happenings[0];
      NewEntriesAreOwned(sys, h.filing, h.action, h.counted);
      ProviderStaysSynced(sys, h.filing, h.action, h.counted);
      EntriesStayOwned(Act(sys, h.filing, h.action, h.counted), happenings[1..]);
    }
  }

  /** The filing `f` declared the operation `id` before it took effect. */
  predicate IntendedBy(sys: Whole, f: FilingKey, id: string) {
    && f in sys.store.filings
    && sys.store.filings[f].state != Ready
    && sys.store.filings[f].providerOperation == Some(id)
    && id in sys.provider.durable.subs && sys.provider.durable.subs[id].filingId == f.filingId
  }

  lemma OwnEffectWasIntended(happenings: seq<Happening>, f: FilingKey)
    ensures var sys := RunSystem(NEW_SYSTEM, happenings); var id := ProviderOperationID(f);
      id in sys.provider.durable.subs ==> IntendedBy(sys, f, id)
  {
    ReachedView(happenings, f);
    IntentBeforeEffect(f, LocalActions(happenings, f));
  }

  lemma NothingIsOwnedAtFirst()
    ensures Synced(NEW_SYSTEM.provider) && Owned(NEW_SYSTEM.provider.memory)
  {
    EmptyLedgerIsSound();
    assert NEW_SYSTEM.provider.memory.subs == map[];
  }

  lemma OwnerExists(sys: Whole, happenings: seq<Happening>, id: string)
    requires Synced(sys.provider) && Owned(sys.provider.memory)
    requires id in RunSystem(sys, happenings).provider.durable.subs
    ensures exists f: FilingKey :: ProviderOperationID(f) == id
  {
    EntriesStayOwned(sys, happenings);
  }

  /** No effect without intent, for every stored ledger entry of every reachable system. */
  lemma EveryEffectWasIntended(happenings: seq<Happening>, id: string)
    ensures var sys := RunSystem(NEW_SYSTEM, happenings);
      id in sys.provider.durable.subs ==> exists f: FilingKey :: IntendedBy(sys, f, id)
  {
    if id in RunSystem(NEW_SYSTEM, happenings).provider.durable.subs {
      NothingIsOwnedAtFirst();
      OwnerExists(NEW_SYSTEM, happenings, id);
      var f: FilingKey :| ProviderOperationID(f) == id;
      OwnEffectWasIntended(happenings, f);
    }
  }

  /** Accountable and the provider agree on every final filing of every reachable system,
      whatever other filings' lookups came back with. */
  lemma EveryOutcomeAgrees(happenings: seq<Happening>, f: FilingKey)
    requires Addressable(f)
    ensures var sys := RunSystem(NEW_SYSTEM, happenings); var id := ProviderOperationID(f);
      f in sys.store.filings && Terminal(sys.store.filings[f].state) ==>
        && id in sys.provider.durable.subs
        && sys.provider.durable.subs[id].status == Completed
        && MapOutcome(sys.provider.durable.subs[id].outcome) == sys.store.filings[f].state
  {
    ReachedView(happenings, f);
    OutcomesAgree(f, LocalActions(happenings, f));
  }

  /** A workflow that reports an outcome reports the one stored for its filing. */
  lemma EverySuccessIsSettled(happenings: seq<Happening>, f: FilingKey)
    ensures var sys := RunSystem(NEW_SYSTEM, happenings); var wf := RuntimeOf(sys.runtimes, f).wf;
      wf.Some? && wf.value.status.Succeeded? && (Addressable(f) || wf.value.status.result.outcome != AlreadyFinal) ==>
        && f in sys.store.filings
        && Rank(sys.store.filings[f].state) >= Rank(NeedsReview)
        && (wf.value.status.result.outcome == FromProvider(OutcomeAccepted) ==> sys.store.filings[f].state == Accepted)
        && (wf.value.status.result.outcome == FromProvider(OutcomeRejected) ==> sys.store.filings[f].state == Rejected)
  {
    ReachedView(happenings, f);
    CurrentSuccessIsSettled(f, LocalActions(happenings, f));
  }

  lemma FilingIsConsistent(happenings: seq<Happening>, f: FilingKey)
    ensures var sys := RunSystem(NEW_SYSTEM, happenings);
      f in sys.store.filings ==> Reconcile.ConsistentAt(sys.store, sys.provider.durable.subs, f)
  {
    ReachedView(happenings, f);
    var sys := RunSystem(NEW_SYSTEM, happenings);
    assert Inv(f, View(sys, f));
    assert CommandKey(f, OutcomeSlot) in sys.store.commands <==> OutcomeSlot in View(sys, f).commands;
  }

  /** The reconcilers' results apply to every reachable system, with any runs: its stores are
      consistent, so a pass over the open filings never breaks off and is idempotent. */
  lemma ReachableSystemsAreConsistent(happenings: seq<Happening>, runs: map<string, Reconcile.RunInfo>)
    ensures var sys := RunSystem(NEW_SYSTEM, happenings);
      Reconcile.Consistent(Reconcile.World(sys.store, runs), sys.provider.durable.subs)
  {
    forall f: FilingKey {
      FilingIsConsistent(happenings, f);
    }
  }
}
