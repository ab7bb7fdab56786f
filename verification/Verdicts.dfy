/** What the reconcilers report, read off the filing list, the runs and the provider's entries as
    they were before the pass. */
module Verdicts {
  import opened Domain
  import opened CommandStore
  import opened ProviderLedger
  import opened Filing
  import opened Reconcile

  // ---------- What is to be seen of one filing ----------

  predicate InReview(f: Due) {
    f.state == NeedsReview
  }

  predicate HasRun(w: World, f: Due, status: DbosStatus) {
    WorkflowID(f.filing) in w.runs && w.runs[WorkflowID(f.filing)].status == status
  }

  /** The run is at work, or waits to be, and was touched within the bound. */
  predicate Lively(w: World, f: Due, m: Mode) {
    WorkflowID(f.filing) in w.runs &&
      var run := w.runs[WorkflowID(f.filing)];
      || ((run.status == Pending || run.status == Enqueued) && m.now - run.updatedAt < m.stale)
      || (run.status == Delayed && m.now < run.delayUntil + m.stale)
  }

  predicate CompletedWith(ledger: Ledgers, f: Due, o: Outcome) {
    var id := ProviderOperationID(f.filing);
    (o == OutcomeAccepted || o == OutcomeRejected)
    && id in ledger && ledger[id].status == Completed && ledger[id].outcome == o
  }

  predicate CompletedAnyhow(ledger: Ledgers, f: Due) {
    CompletedWith(ledger, f, OutcomeAccepted) || CompletedWith(ledger, f, OutcomeRejected)
  }

  /** The filing waits for an outcome that no run is going to record. */
  predicate AwaitsOutcome(w: World, f: Due) {
    InReview(f) || HasRun(w, f, Success)
  }

  predicate IsMissing(w: World, f: Due) {
    !InReview(f) && WorkflowID(f.filing) !in w.runs
  }

  predicate HasFailed(w: World, f: Due) {
    !InReview(f) && HasRun(w, f, Error)
  }

  /** What neither reconciler can repair: no outcome where one is due, a run that was cancelled or
      whose status is unknown, and one that has been silent for too long. */
  predicate NeedsAttention(w: World, ledger: Ledgers, f: Due, m: Mode) {
    if AwaitsOutcome(w, f) then !CompletedAnyhow(ledger, f)
    else
      || HasRun(w, f, DbosStatus.Cancelled)
      || HasRun(w, f, UnknownStatus)
      || ((HasRun(w, f, Pending) || HasRun(w, f, Enqueued) || HasRun(w, f, Delayed)) && !Lively(w, f, m))
  }

  /** The verdict on a filing, said without the policy. */
  predicate RightVerdict(w: World, ledger: Ledgers, f: Due, m: Mode, v: Reconcile.Verdict) {
    && (v == Healthy <==> !InReview(f) && Lively(w, f, m))
    && (v == Escalate <==> NeedsAttention(w, ledger, f, m))
    && (v == Recreate <==> HasFailed(w, f))
    && (v == StartMissing <==> IsMissing(w, f))
    && (forall o :: v == Finalize(o) <==> AwaitsOutcome(w, f) && CompletedWith(ledger, f, o))
  }

  lemma JudgementIsRight(w: World, ledger: Ledgers, f: Due, m: Mode)
    ensures RightVerdict(w, ledger, f, m, JudgeIn(w, ledger, f, m))
  {
  }

  lemma ReportedIsJudged(w: World, ledger: Ledgers, list: seq<Due>, m: Mode, rivals: Rivals, i: nat)
    requires Distinct(list) && i < |Pass(w, ledger, list, m, rivals).verdicts|
    ensures i < |list| && Pass(w, ledger, list, m, rivals).verdicts[i] == JudgeIn(w, ledger, list[i], m)
  {
    DryRunIsFaithful(w, ledger, list, m, rivals);
    if m.apply {
      assert m.(apply := true) == m;
    } else {
      assert m.(apply := false) == m;
    }
  }

  /** Every line that a pass reports, applying or not, finished or broken off, is the right one for
      its filing as everything was before the pass. */
  lemma VerdictsAreRight(w: World, ledger: Ledgers, list: seq<Due>, m: Mode, rivals: Rivals, i: nat)
    requires Distinct(list) && i < |Pass(w, ledger, list, m, rivals).verdicts|
    ensures i < |list| && RightVerdict(w, ledger, list[i], m, Pass(w, ledger, list, m, rivals).verdicts[i])
  {
    ReportedIsJudged(w, ledger, list, m, rivals, i);
    JudgementIsRight(w, ledger, list[i], m);
  }

  // ---------- The counters ----------

  function Positions(verdicts: seq<Reconcile.Verdict>, kind: Kind): set<nat> {
    set i: nat | i < |verdicts| && KindOf(verdicts[i]) == kind
  }

  lemma {:induction false} CountsPositions(verdicts: seq<Reconcile.Verdict>, kind: Kind)
    ensures HowMany(verdicts, kind) == |Positions(verdicts, kind)|
    decreases |verdicts|
  {
    if verdicts == [] {
      assert Positions(verdicts, kind) == {};
    } else {
      var n := |verdicts| - 1;
      CountsPositions(verdicts[..n], kind);
      var before := Positions(verdicts[..n], kind);
      if KindOf(verdicts[n]) == kind {
        assert Positions(verdicts, kind) == before + {n};
      } else {
        assert Positions(verdicts, kind) == before;
      }
    }
  }

  /** The places of the list at which something is to be seen. */
  function Where(list: seq<Due>, seen: Due -> bool): set<nat> {
    set i: nat | i < |list| && seen(list[i])
  }

  lemma CountsWhere(verdicts: seq<Reconcile.Verdict>, kind: Kind, list: seq<Due>, seen: Due -> bool)
    requires |verdicts| == |list|
    requires forall i: nat :: i < |list| ==> (KindOf(verdicts[i]) == kind <==> seen(list[i]))
    ensures HowMany(verdicts, kind) == |Where(list, seen)|
  {
    CountsPositions(verdicts, kind);
    assert Positions(verdicts, kind) == Where(list, seen);
  }

  lemma KindIsRight(w: World, ledger: Ledgers, f: Due, m: Mode, v: Reconcile.Verdict)
    requires RightVerdict(w, ledger, f, m, v)
    ensures KindOf(v) == Raised <==> NeedsAttention(w, ledger, f, m)
    ensures KindOf(v) == Remade <==> HasFailed(w, f)
    ensures KindOf(v) == Made <==> IsMissing(w, f)
    ensures KindOf(v) == Closed <==> AwaitsOutcome(w, f) && CompletedAnyhow(ledger, f)
  {
    if v.Finalize? {
      assert v == Finalize(v.outcome);
    }
    assert v == Finalize(OutcomeAccepted) <==> AwaitsOutcome(w, f) && CompletedWith(ledger, f, OutcomeAccepted);
    assert v == Finalize(OutcomeRejected) <==> AwaitsOutcome(w, f) && CompletedWith(ledger, f, OutcomeRejected);
  }

  /** What a finished pass reported of one filing, by kind. */
  lemma ReportedKind(w: World, ledger: Ledgers, list: seq<Due>, m: Mode, rivals: Rivals, i: nat)
    requires Distinct(list) && i < |Pass(w, ledger, list, m, rivals).verdicts|
    ensures i < |list|
    ensures var kind := KindOf(Pass(w, ledger, list, m, rivals).verdicts[i]); var f := list[i];
      && (kind == Raised <==> NeedsAttention(w, ledger, f, m))
      && (kind == Remade <==> HasFailed(w, f))
      && (kind == Made <==> IsMissing(w, f))
      && (kind == Closed <==> AwaitsOutcome(w, f) && CompletedAnyhow(ledger, f))
  {
    VerdictsAreRight(w, ledger, list, m, rivals, i);
    KindIsRight(w, ledger, list[i], m, Pass(w, ledger, list, m, rivals).verdicts[i]);
  }

  /** How many verdicts of each kind a finished pass reports, as seen before it. */
  lemma KindsAreExact(w: World, ledger: Ledgers, list: seq<Due>, m: Mode, rivals: Rivals)
    requires Distinct(list) && !Pass(w, ledger, list, m, rivals).failed
    ensures var verdicts := Pass(w, ledger, list, m, rivals).verdicts;
      && HowMany(verdicts, Raised) == |Where(list, f => NeedsAttention(w, ledger, f, m))|
      && HowMany(verdicts, Remade) == |Where(list, f => HasFailed(w, f))|
      && HowMany(verdicts, Made) == |Where(list, f => IsMissing(w, f))|
      && HowMany(verdicts, Closed) == |Where(list, f => AwaitsOutcome(w, f) && CompletedAnyhow(ledger, f))|
  {
    var verdicts := Pass(w, ledger, list, m, rivals).verdicts;
    OneVerdictEach(w, ledger, list, m, rivals);
    forall i: nat | i < |list|
      ensures KindOf(verdicts[i]) == Raised <==> NeedsAttention(w, ledger, list[i], m)
      ensures KindOf(verdicts[i]) == Remade <==> HasFailed(w, list[i])
      ensures KindOf(verdicts[i]) == Made <==> IsMissing(w, list[i])
      ensures KindOf(verdicts[i]) == Closed <==> AwaitsOutcome(w, list[i]) && CompletedAnyhow(ledger, list[i])
    {
      ReportedKind(w, ledger, list, m, rivals, i);
    }
    CountsWhere(verdicts, Raised, list, f => NeedsAttention(w, ledger, f, m));
    CountsWhere(verdicts, Remade, list, f => HasFailed(w, f));
    CountsWhere(verdicts, Made, list, f => IsMissing(w, f));
    CountsWhere(verdicts, Closed, list, f => AwaitsOutcome(w, f) && CompletedAnyhow(ledger, f));
  }

  /** The counters of a finished scheduled pass: escalated are the filings that need attention,
      recreated those whose run has failed, finalized those that await an outcome which the
      provider has, and started the missing and the failed ones that no rival was seen to start. */
  lemma CountersAreExact(w: World, ledger: Ledgers, list: seq<Due>, m: Mode, rivals: Rivals, c: Counters)
    requires Distinct(list)
    requires var rep := Pass(w, ledger, list, m, rivals); !rep.failed && Summary(rep, c)
    ensures c.escalated == |Where(list, f => NeedsAttention(w, ledger, f, m))|
    ensures c.recreated == |Where(list, f => HasFailed(w, f))|
    ensures c.finalized == |Where(list, f => AwaitsOutcome(w, f) && CompletedAnyhow(ledger, f))|
    ensures c.started + Pass(w, ledger, list, m, rivals).lost ==
              |Where(list, f => HasFailed(w, f))| + |Where(list, f => IsMissing(w, f))|
  {
    KindsAreExact(w, ledger, list, m, rivals);
  }

  /** The operator's count of missing runs. */
  lemma MissingIsExact(w: World, ledger: Ledgers, list: seq<Due>, m: Mode, rivals: Rivals, missing: nat)
    requires Distinct(list)
    requires var rep := Pass(w, ledger, list, m, rivals); !rep.failed && CountsMissing(rep, missing)
    ensures missing == |Where(list, f => IsMissing(w, f))|
  {
    KindsAreExact(w, ledger, list, m, rivals);
  }

  /** The run that the filing needs has been started by somebody else, and the runtime says so. */
  predicate LosesStart(w: World, f: Due, rivals: Rivals) {
    && (IsMissing(w, f) || HasFailed(w, f))
    && WorkflowID(f.filing) in rivals && rivals[WorkflowID(f.filing)].signalled
  }

  lemma WhereOneMore(list: seq<Due>, seen: Due -> bool)
    requires list != []
    ensures |Where(list, seen)| == |Where(list[..|list| - 1], seen)| + (if seen(list[|list| - 1]) then 1 else 0)
  {
    var n := |list| - 1;
    if seen(list[n]) {
      assert Where(list, seen) == Where(list[..n], seen) + {n};
    } else {
      assert Where(list, seen) == Where(list[..n], seen);
    }
  }

  /** Acting on the last filing of a list loses a race exactly when that could be seen before. */
  lemma LastLoses(w: World, ledger: Ledgers, list: seq<Due>, m: Mode, rivals: Rivals)
    requires m.apply && Distinct(list) && list != []
    ensures var n := |list| - 1; var rep := Pass(w, ledger, list[..n], m, rivals);
      !rep.failed ==>
        Enact(rep.world, list[n], JudgeIn(rep.world, ledger, list[n], m), m, rivals).lost ==
          LosesStart(w, list[n], rivals)
  {
    var n := |list| - 1;
    var rep := Pass(w, ledger, list[..n], m, rivals);
    LastIsUntouched(w, ledger, list, m, rivals);
    JudgesAlike(w, rep.world, ledger, list[n], m, true);
    assert m.(apply := true) == m;
    JudgementIsRight(w, ledger, list[n], m);
  }

  /** The lost start races of a finished pass are exactly these. */
  lemma {:induction false} LostIsExact(w: World, ledger: Ledgers, list: seq<Due>, m: Mode, rivals: Rivals)
    requires m.apply && Distinct(list) && !Pass(w, ledger, list, m, rivals).failed
    ensures Pass(w, ledger, list, m, rivals).lost == |Where(list, f => LosesStart(w, f, rivals))|
    decreases |list|
  {
    if list == [] {
      assert Where(list, f => LosesStart(w, f, rivals)) == {};
    } else {
      LostIsExact(w, ledger, list[..|list| - 1], m, rivals);
      LastLoses(w, ledger, list, m, rivals);
      WhereOneMore(list, f => LosesStart(w, f, rivals));
    }
  }

  lemma RacesAreLost(w: World, ledger: Ledgers, f: Due, m: Mode, rivals: Rivals)
    ensures LosesRace(w, ledger, f, m, rivals) <==> LosesStart(w, f, rivals)
  {
    JudgementIsRight(w, ledger, f, m);
  }

  /** Where a pass stands that has broken off: at a start that somebody else won, whose run is there. */
  ghost predicate BrokenOffAt(w: World, list: seq<Due>, m: Mode, rivals: Rivals, rep: Report, n: nat) {
    && n < |list| && LosesStart(w, list[n], rivals)
    && (forall i :: 0 <= i < n ==> !LosesStart(w, list[i], rivals))
    && var id := WorkflowID(list[n].filing);
      id in rivals && Lookup(rep.world.runs, id) == Some(RunInfo(Enqueued, m.now, m.now, rivals[id].input))
  }

  lemma LastBreaksOff(w: World, ledger: Ledgers, list: seq<Due>, m: Mode, rivals: Rivals, before: Report)
    requires m.apply && list != [] && PassOk(w, ledger, list[..|list| - 1], m, rivals, before) && !before.failed
    requires m.who == Operator && Current(list[|list| - 1], before.world.store)
    requires JudgeIn(before.world, ledger, list[|list| - 1], m) == JudgeIn(w, ledger, list[|list| - 1], m)
    ensures var n := |list| - 1; var after := DealWith(before, ledger, list[n], m, rivals);
      after.failed ==> |after.verdicts| == n && BrokenOffAt(w, list, m, rivals, after, n)
  {
    var n := |list| - 1;
    var v := JudgeIn(before.world, ledger, list[n], m);
    StepStaysConsistent(before.world, ledger, list[n], m, rivals);
    RacesAreLost(w, ledger, list[n], m, rivals);
    if Starts(v) { StepStartsFresh(before.world, list[n], v, m, rivals); }
    forall i | 0 <= i < n
      ensures !LosesStart(w, list[i], rivals)
    {
      assert list[..n][i] == list[i];
      RacesAreLost(w, ledger, list[i], m, rivals);
    }
  }

  /** A pass that breaks off does so at the first start race it loses: it has reported the filings
      before that one, and no other. */
  lemma {:induction false} BreaksOffAtFirstLoss(w: World, ledger: Ledgers, list: seq<Due>, m: Mode, rivals: Rivals)
    requires m.apply && Consistent(w, ledger) && Listing(list, w.store)
    requires Pass(w, ledger, list, m, rivals).failed
    ensures var rep := Pass(w, ledger, list, m, rivals);
      m.who == Operator && BrokenOffAt(w, list, m, rivals, rep, |rep.verdicts|)
    decreases |list|
  {
    var n := |list| - 1;
    var before := Pass(w, ledger, list[..n], m, rivals);
    PassFollowsPlan(w, ledger, list, m, rivals);
    PassFollowsPlan(w, ledger, list[..n], m, rivals);
    if before.failed {
      BreaksOffAtFirstLoss(w, ledger, list[..n], m, rivals);
      assert forall i :: 0 <= i < n ==> list[..n][i] == list[i];
    } else {
      ListedOnceStays(w, ledger, list, m, rivals, before);
      LastIsUntouched(w, ledger, list, m, rivals);
      JudgesAlike(w, before.world, ledger, list[n], m, true);
      assert m.(apply := true) == m;
      LastBreaksOff(w, ledger, list, m, rivals, before);
    }
  }

  // ---------- What a finalized filing has on record ----------

  /** The outcome command of a reconciler, with its reason. */
  function OutcomeRequest(f: FilingKey, o: Outcome, who: Reconciler): CommandRequest {
    CommandRequest(WorkflowID(f) + "-outcome",
                   if o == OutcomeAccepted then MarkFilingAccepted else MarkFilingRejected, f, "",
                   if who == Operator then "resolved from completed provider operation"
                   else "resolved by scheduled reconciliation")
  }

  predicate OnRecord(store: Store, f: FilingKey, o: Outcome, who: Reconciler) {
    var key := WorkflowID(f) + "-outcome";
    key in store.commands && store.commands[key].request == OutcomeRequest(f, o, who)
  }

  lemma FinalizingRecords(w: World, ledger: Ledgers, f: Due, o: Outcome, m: Mode, rivals: Rivals)
    requires Current(f, w.store) && ConsistentAt(w.store, ledger, f.filing)
    requires Resolved(StatusOf(Lookup(ledger, ProviderOperationID(f.filing)), ProviderOperationID(f.filing))) == Some(o)
    ensures OnRecord(Enact(w, f, Finalize(o), m, rivals).world.store, f.filing, o, m.who)
  {
    FinalizeApplies(w, ledger, f, o, DetailOf(m.who));
    CommandKeysAreCanonical(f.filing);
  }

  /** In any world at all: recording an outcome is refused exactly if another command is on record
      under the outcome key, or there is none and the filing does not wait for an outcome. A refusal
      changes nothing. */
  lemma RefusedExactlyWhen(w: World, f: Due, o: Outcome, m: Mode, rivals: Rivals)
    requires Sound(w.store) && (o == OutcomeAccepted || o == OutcomeRejected)
    ensures var e := Enact(w, f, Finalize(o), m, rivals); var key := WorkflowID(f.filing) + "-outcome";
      var filings, commands := w.store.filings, w.store.commands;
      && (e.failed <==> if key in commands then commands[key].request != OutcomeRequest(f.filing, o, m.who)
                        else f.filing !in filings || filings[f.filing].state !in {Submitting, Submitted, NeedsReview})
      && (e.failed ==> e.world == w) && e.world.runs == w.runs && !e.lost
  {
    var req := FinalCommand(f.filing, o, DetailOf(m.who));
    CommandKeysAreCanonical(f.filing);
    assert req == OutcomeRequest(f.filing, o, m.who) && req.key[0] == 'f';
    AnsweredExactly(w.store, req);
    ApplyCases(w.store, req);
  }

  /** No verdict takes a stored command back. */
  lemma RecordsStay(w: World, f: Due, v: Reconcile.Verdict, m: Mode, rivals: Rivals, g: FilingKey, o: Outcome)
    requires OnRecord(w.store, g, o, m.who)
    ensures OnRecord(Enact(w, f, v, m, rivals).world.store, g, o, m.who)
  {
  }

  predicate RecordedAt(rep: Report, f: Due, i: nat, m: Mode) {
    i < |rep.verdicts| && rep.verdicts[i].Finalize? ==>
      OnRecord(rep.world.store, f.filing, rep.verdicts[i].outcome, m.who)
  }

  lemma RecordedOnward(before: Report, ledger: Ledgers, f: Due, m: Mode, rivals: Rivals, g: Due, i: nat)
    requires m.apply && i < |before.verdicts| && RecordedAt(before, g, i, m)
    ensures RecordedAt(DealWith(before, ledger, f, m, rivals), g, i, m)
  {
    if !before.failed && before.verdicts[i].Finalize? {
      RecordsStay(before.world, f, JudgeIn(before.world, ledger, f, m), m, rivals, g.filing,
          before.verdicts[i].outcome);
    }
  }

  lemma RecordedThen(before: Report, ledger: Ledgers, f: Due, m: Mode, rivals: Rivals)
    requires m.apply && !before.failed && Consistent(before.world, ledger) && Current(f, before.world.store)
    ensures RecordedAt(DealWith(before, ledger, f, m, rivals), f, |before.verdicts|, m)
  {
    var v := JudgeIn(before.world, ledger, f, m);
    assert ConsistentAt(before.world.store, ledger, f.filing);
    if v.Finalize? {
      FinalizeIsResolved(before.world, ledger, f, m);
      FinalizingRecords(before.world, ledger, f, v.outcome, m, rivals);
    }
  }

  /** What the last filing of a list finds when its turn comes. */
  lemma LastFindsConsistency(w: World, ledger: Ledgers, list: seq<Due>, m: Mode, rivals: Rivals)
    requires m.apply && Consistent(w, ledger) && Listing(list, w.store) && list != []
    ensures var n := |list| - 1; var rep := Pass(w, ledger, list[..n], m, rivals);
      && Consistent(rep.world, ledger) && Current(list[n], rep.world.store)
      && |rep.verdicts| <= n && (rep.failed || |rep.verdicts| == n)
  {
    var n := |list| - 1;
    PassFollowsPlan(w, ledger, list[..n], m, rivals);
    OneVerdictEach(w, ledger, list[..n], m, rivals);
    ListedOnceStays(w, ledger, list, m, rivals, Pass(w, ledger, list[..n], m, rivals));
  }

  lemma BrokenStays(before: Report, ledger: Ledgers, f: Due, m: Mode, rivals: Rivals)
    requires before.failed
    ensures DealWith(before, ledger, f, m, rivals) == before
  {
  }

  lemma RecordedTurn(before: Report, ledger: Ledgers, list: seq<Due>, m: Mode, rivals: Rivals, i: nat)
    requires m.apply && i < |list| && |before.verdicts| <= |list| - 1
    requires before.failed || |before.verdicts| == |list| - 1
    requires Consistent(before.world, ledger) && Current(list[|list| - 1], before.world.store)
    requires i < |list| - 1 ==> RecordedAt(before, list[i], i, m)
    ensures RecordedAt(DealWith(before, ledger, list[|list| - 1], m, rivals), list[i], i, m)
  {
    var f := list[|list| - 1];
    if before.failed {
      BrokenStays(before, ledger, f, m, rivals);
    } else if i < |list| - 1 {
      RecordedOnward(before, ledger, f, m, rivals, list[i], i);
    } else {
      RecordedThen(before, ledger, f, m, rivals);
    }
  }

  /** Every filing that a pass finalized has the outcome command on record, under its own key and
      with the reason of the reconciler that ran, whether or not the pass broke off later. */
  lemma {:induction false} FinalizedIsOnRecord(w: World, ledger: Ledgers, list: seq<Due>, m: Mode,
          rivals: Rivals, i: nat)
    requires m.apply && Consistent(w, ledger) && Listing(list, w.store) && i < |list|
    ensures RecordedAt(Pass(w, ledger, list, m, rivals), list[i], i, m)
    decreases |list|
  {
    LastFindsConsistency(w, ledger, list, m, rivals);
    if i < |list| - 1 {
      FinalizedIsOnRecord(w, ledger, list[..|list| - 1], m, rivals, i);
    }
    RecordedTurn(Pass(w, ledger, list[..|list| - 1], m, rivals), ledger, list, m, rivals, i);
  }
}
