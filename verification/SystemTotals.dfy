/** Counts over the whole system: what happens at most once per filing, and how many repeated
    submissions the provider may count. */
module SystemTotals {
  import opened Domain
  import opened Totals
  import opened CommandStore
  import opened ProviderLedger
  import opened Protocol
  import opened ProtocolInvariant
  import opened Guarantees
  import opened System

  // ---------- Exactly once ----------

  /** How often each effect happens to one filing along a run of the whole system. */
  function SystemEffects(sys: Whole, happenings: seq<Happening>, f: FilingKey): EffectCounts
    decreases |happenings|
  {
    if happenings == [] then EffectCounts(0, 0, 0, 0, 0, 0)
    else
      var h := happenings[0];
      var sys' := Act(sys, h.filing, h.action, h.counted);
      Counted(BusinessOf(View(sys, f)), BusinessOf(View(sys', f)), SystemEffects(sys', happenings[1..], f))
  }

  /** Whatever any filing does is one permitted effect for a given filing, or none. */
  lemma SystemStepIsPermitted(sys: Whole, h: Happening, f: FilingKey)
    requires SystemInv(sys)
    ensures Permitted(f, BusinessOf(View(sys, f)), BusinessOf(View(Act(sys, h.filing, h.action, h.counted), f)))
  {
    ViewsMoveLocally(sys, h.filing, h.action, h.counted, f);
    assert Inv(f, View(sys, f));
    StepIsPermitted(f, View(sys, f), h.action);
  }

  lemma {:induction false} SystemEffectsStillPossible(sys: Whole, happenings: seq<Happening>, f: FilingKey)
    requires SystemInv(sys)
    ensures Spent(SystemEffects(sys, happenings, f), BusinessOf(View(sys, f)))
    decreases |happenings|
  {
    if happenings != [] {
      var h := happenings[0];
      var sys' := Act(sys, h.filing, h.action, h.counted);
      ActKeepsSystemInv(sys, h.filing, h.action, h.counted);
      SystemStepIsPermitted(sys, h, f);
      SystemEffectsStillPossible(sys', happenings[1..], f);
      SpendingAddsUp(f, BusinessOf(View(sys, f)), BusinessOf(View(sys', f)), SystemEffects(sys', happenings[1..], f));
    }
  }

  /** Exactly-once effects for all filings at once: in any run of the whole system each filing
      has its intent declared, its return filed, its outcome settled, and is marked, reviewed
      and recorded at most once each. */
  lemma EveryEffectAtMostOnce(happenings: seq<Happening>, f: FilingKey)
    ensures var t := SystemEffects(NEW_SYSTEM, happenings, f);
      t.intents <= 1 && t.filings <= 1 && t.settlements <= 1 && t.marks <= 1 && t.reviews <= 1 && t.records <= 1
  {
    NewSystemIsSound(NEW_SYSTEM);
    SystemEffectsStillPossible(NEW_SYSTEM, happenings, f);
  }

  // ---------- Repeated submissions ----------

  /** The books balance, for some numbers of the two uncounted kinds of answer. */
  ghost predicate Balanced(l: Ledger) {
    exists t: Uncounted :: Conserved(l, t.conflicts, t.exhausted)
  }

  lemma ActStaysBalanced(sys: Whole, h: Happening)
    requires Synced(sys.provider) && Balanced(sys.provider.durable)
    ensures Balanced(Act(sys, h.filing, h.action, h.counted).provider.durable)
  {
    ProviderReacts(sys, h.filing, h.action, h.counted);
    var e := ProviderEvent(sys, h.filing, h.action, h.counted);
    var t: Uncounted :| Conserved(sys.provider.durable, t.conflicts, t.exhausted);
    if e.Some? {
      ReactKeeps(sys.provider, e.value, t);
      var t' := ProviderLedger.Tally(sys.provider, e.value, t);
      assert Conserved(React(sys.provider, e.value).durable, t'.conflicts, t'.exhausted);
    }
  }

  lemma {:induction false} RunStaysBalanced(sys: Whole, happenings: seq<Happening>)
    requires Synced(sys.provider) && Balanced(sys.provider.durable)
    ensures Balanced(RunSystem(sys, happenings).provider.durable)
    decreases |happenings|
  {
    if happenings != [] {
      var h := happenings[0];
      ActStaysBalanced(sys, h);
      ProviderStaysSynced(sys, h.filing, h.action, h.counted);
      RunStaysBalanced(Act(sys, h.filing, h.action, h.counted), happenings[1..]);
    }
  }

  lemma NewBooksBalance()
    ensures Balanced(NEW_SYSTEM.provider.durable)
  {
    EmptyLedgerIsSound();
    var none := Uncounted(0, 0);
    assert Conserved(EMPTY_LEDGER, none.conflicts, none.exhausted);
  }

  /** The crashes and rollbacks that each workflow ID has seen. */
  ghost function FaultCounts(runtimes: map<string, Runtime>): map<string, nat> {
    map id | id in runtimes :: runtimes[id].faults
  }

  /** No request overtakes another in any filing's run, and the network duplicates no POST. */
  ghost predicate AllPrompt(happenings: seq<Happening>) {
    forall f: FilingKey :: PromptRun(f, NEW_FILING, LocalActions(happenings, f))
  }

  /** Every operation in the ledger belongs to a filing that lookups find. */
  ghost predicate AllAddressable(l: Ledger) {
    forall f: FilingKey :: ProviderOperationID(f) in l.subs ==> Addressable(f)
  }

  lemma RepeatsOfOneNeedFaults(happenings: seq<Happening>, f: FilingKey)
    requires Addressable(f) && AllPrompt(happenings)
    ensures var sys := RunSystem(NEW_SYSTEM, happenings); var id := ProviderOperationID(f);
      id in sys.provider.durable.subs ==> Extra(sys.provider.durable.subs[id]) <= RuntimeOf(sys.runtimes, f).faults
  {
    ReachedView(happenings, f);
    DuplicatePostsNeedFaults(f, LocalActions(happenings, f));
  }

  lemma ExtrasAreDominated(happenings: seq<Happening>, id: string)
    requires AllPrompt(happenings) && AllAddressable(RunSystem(NEW_SYSTEM, happenings).provider.durable)
    requires id in RunSystem(NEW_SYSTEM, happenings).provider.durable.subs
    ensures var sys := RunSystem(NEW_SYSTEM, happenings); var faults := FaultCounts(sys.runtimes);
      Extra(sys.provider.durable.subs[id]) <= if id in faults then faults[id] else 0
  {
    NothingIsOwnedAtFirst();
    OwnerExists(NEW_SYSTEM, happenings, id);
    var f: FilingKey :| ProviderOperationID(f) == id;
    RepeatsOfOneNeedFaults(happenings, f);
    assert WorkflowID(f) == id;
  }

  lemma TotalOfExtras(subs: map<string, Entry>, faults: map<string, nat>)
    requires forall id :: id in subs ==> Extra(subs[id]) <= if id in faults then faults[id] else 0
    ensures Total(ExtraAttempts(subs)) <= Total(faults)
  {
    TotalDominated(ExtraAttempts(subs), faults);
  }

  /** Repeated submissions over all filings: if in every filing's run each POST is handled before
      the next lookup and none is duplicated, the provider's count of duplicate submissions is
      at most the crashes and rollbacks of all workflows together, hence zero without any. */
  lemma AllDuplicatesNeedFaults(happenings: seq<Happening>)
    requires AllPrompt(happenings) && AllAddressable(RunSystem(NEW_SYSTEM, happenings).provider.durable)
    ensures var sys := RunSystem(NEW_SYSTEM, happenings);
      sys.provider.durable.metrics.duplicates <= Total(FaultCounts(sys.runtimes))
  {
    var sys := RunSystem(NEW_SYSTEM, happenings);
    NothingIsOwnedAtFirst();
    NewBooksBalance();
    RunStaysBalanced(NEW_SYSTEM, happenings);
    var subs, faults := sys.provider.durable.subs, FaultCounts(sys.runtimes);
    forall id | id in subs
      ensures Extra(subs[id]) <= if id in faults then faults[id] else 0
    {
      ExtrasAreDominated(happenings, id);
    }
    TotalOfExtras(subs, faults);
  }
}
