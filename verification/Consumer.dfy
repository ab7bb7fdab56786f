/** The event consumer: what one poll may acknowledge, and what an acknowledgement means. */
module Consumer {
  import opened Domain

  datatype TopicPartition = TopicPartition(topic: string, partition: int)

  datatype FilingEvent = FilingEvent(eventId: string, filing: FilingKey, scenario: Scenario)

  /** One fetched record; its event is absent when the value cannot be decoded. */
  datatype Record = Record(source: TopicPartition, offset: int, event: Option<FilingEvent>)

  datatype StartConflict = StartConflict(filing: FilingKey, existing: FilingInput, requested: FilingInput)

  /** The persisted workflow inputs, absent where the stored text is not an input at all, and
      the conflicting starts recorded at Accountable under their event IDs. */
  datatype Starts = Starts(inputs: map<string, Option<FilingInput>>, conflicts: map<string, StartConflict>)

  /** What the runtime and the network do to one record. A start or a conflict report that
      fails may still have taken effect. */
  datatype Weather = Weather(
    startFails: bool, startLands: bool, lookupFails: bool, reportFails: bool, reportLands: bool)

  function Requested(ev: FilingEvent): FilingInput {
    FilingInput(ev.filing, ev.scenario)
  }

  /** Decoding a persisted input refuses one without a filing ID. */
  function Decoded(stored: Option<FilingInput>): Option<FilingInput> {
    if stored.Some? && stored.value.filing.filingId == "" then None else stored
  }

  // ---------- One record ----------

  /** Starting under an ID that exists returns the existing workflow. */
  function StartWorkflow(s: Starts, ev: FilingEvent): Starts {
    var id := WorkflowID(ev.filing);
    if id in s.inputs then s else s.(inputs := s.inputs[id := Some(Requested(ev))])
  }

  predicate ReportIsWellFormed(ev: FilingEvent) {
    ev.eventId != "" && ev.filing.filingId != "" && ev.filing.taxYear != 0
  }

  /** The conflict table keeps the first row of every event ID. */
  function RecordConflict(s: Starts, ev: FilingEvent, existing: FilingInput): Starts {
    if ev.eventId in s.conflicts then s
    else s.(conflicts := s.conflicts[ev.eventId := StartConflict(ev.filing, existing, Requested(ev))])
  }

  datatype Handled = Handled(starts: Starts, done: bool)

  function HandleEvent(s: Starts, ev: FilingEvent, w: Weather): Handled {
    var id := WorkflowID(ev.filing);
    if w.startFails then Handled(if w.startLands then StartWorkflow(s, ev) else s, false)
    else
      var started := StartWorkflow(s, ev);
      var existing := Decoded(started.inputs[id]);
      if w.lookupFails || existing.None? then Handled(started, false)
      else if existing.value == Requested(ev) then Handled(started, true)
      else if !ReportIsWellFormed(ev) then Handled(started, false)
      else
        var filed := RecordConflict(started, ev, existing.value);
        Handled(if w.reportFails && !w.reportLands then started else filed, !w.reportFails)
  }

  function HandleRecord(s: Starts, r: Record, w: Weather): Handled {
    if r.event.None? then Handled(s, true) else HandleEvent(s, r.event.value, w)
  }

  // ---------- One poll ----------

  datatype Batch = Batch(starts: Starts, processed: seq<Record>, blocked: set<TopicPartition>)

  function Take(b: Batch, r: Record, w: Weather): Batch {
    if r.source in b.blocked then b
    else
      var h := HandleRecord(b.starts, r, w);
      if h.done then Batch(h.starts, b.processed + [r], b.blocked)
      else Batch(h.starts, b.processed, b.blocked + {r.source})
  }

  function Poll(s: Starts, fetched: seq<Record>, weather: seq<Weather>): Batch
    requires |weather| == |fetched|
    decreases |fetched|
  {
    if fetched == [] then Batch(s, [], {})
    else Take(Poll(s, fetched[..|fetched| - 1], weather[..|weather| - 1]), fetched[|fetched| - 1],
        weather[|weather| - 1])
  }

  // ---------- What an acknowledgement means ----------

  /** The records of one partition, in order. */
  function Of(p: TopicPartition, records: seq<Record>): seq<Record>
    decreases |records|
  {
    if records == [] then []
    else Of(p, records[..|records| - 1])
         + (if records[|records| - 1].source == p then [records[|records| - 1]] else [])
  }

  /** The event behind a record needs no further work: it is unreadable, a workflow holds
      exactly its input, or a workflow holds another input and the clash is on file. */
  predicate Backed(s: Starts, r: Record) {
    r.event.Some? ==>
      var ev := r.event.value;
      var id := WorkflowID(ev.filing);
      && id in s.inputs && Decoded(s.inputs[id]).Some?
      && (Decoded(s.inputs[id]) != Some(Requested(ev)) ==> ev.eventId in s.conflicts)
  }

  /** Workflow inputs and conflict rows are only ever added. */
  ghost predicate Preserves(s: Starts, s': Starts) {
    && (forall id :: id in s.inputs ==> id in s'.inputs && s'.inputs[id] == s.inputs[id])
    && (forall e :: e in s.conflicts ==> e in s'.conflicts && s'.conflicts[e] == s.conflicts[e])
  }

  lemma HandlingOnlyAdds(s: Starts, r: Record, w: Weather)
    ensures Preserves(s, HandleRecord(s, r, w).starts)
  {
  }

  /** The stored input that the handler of an event will look at. */
  function InputFor(s: Starts, ev: FilingEvent): Option<FilingInput> {
    var id := WorkflowID(ev.filing);
    Decoded(if id in s.inputs then s.inputs[id] else Some(Requested(ev)))
  }

  /** What has to be true beforehand for a record to be handled: nothing fails on the way, and
      the stored input can be read and is the event's own or a clash that can be put on file. */
  predicate Ready(s: Starts, r: Record, w: Weather) {
    r.event.Some? ==>
      var ev := r.event.value;
      var existing := InputFor(s, ev);
      && !w.startFails && !w.lookupFails && existing.Some?
      && (existing == Some(Requested(ev)) || (ReportIsWellFormed(ev) && !w.reportFails))
  }

  lemma DoneExactlyWhenReady(s: Starts, r: Record, w: Weather)
    ensures HandleRecord(s, r, w).done <==> Ready(s, r, w)
  {
  }

  /** A done record is backed; and when nothing fails on the way and its event could be
      reported, a record is done exactly when it is backed afterwards. */
  lemma DoneMeansBacked(s: Starts, r: Record, w: Weather)
    ensures var h := HandleRecord(s, r, w);
      && (h.done ==> Backed(h.starts, r))
      && (!h.done ==> r.event.Some?)
      && (!w.startFails && !w.lookupFails && !w.reportFails && (r.event.None? || ReportIsWellFormed(r.event.value)) ==>
            (h.done <==> Backed(h.starts, r)))
  {
  }

  const CALM := Weather(false, false, false, false, false)

  /** Whether an event can be handled at all depends on the stored input only: it is unreadable,
      or the stored input can be read and is its own, or a clash that can be put on file. */
  lemma CanBeDoneExactlyWhen(s: Starts, r: Record)
    ensures (exists w: Weather :: HandleRecord(s, r, w).done) <==>
      (r.event.Some? ==>
        var existing := InputFor(s, r.event.value);
        existing.Some? && (existing == Some(Requested(r.event.value)) || ReportIsWellFormed(r.event.value)))
  {
    DoneExactlyWhenReady(s, r, CALM);
  }

  /** An event without an ID, a filing or a year that clashes with a workflow, and any event
      without a filing ID, is never acknowledged by the poll that handles it. */
  lemma UnreportableClashIsNeverDone(s: Starts, r: Record, w: Weather)
    requires r.event.Some? && !ReportIsWellFormed(r.event.value)
    ensures var ev := r.event.value; var id := WorkflowID(ev.filing);
      && (id in s.inputs && s.inputs[id] != Some(Requested(ev)) ==> HandleRecord(s, r, w) == Handled(s, false))
      && (ev.filing.filingId == "" ==> !HandleRecord(s, r, w).done)
  {
  }

  lemma PollStep(s: Starts, fetched: seq<Record>, weather: seq<Weather>, i: nat)
    requires |weather| == |fetched| && i < |fetched|
    ensures Poll(s, fetched[..i + 1], weather[..i + 1]) ==
        Take(Poll(s, fetched[..i], weather[..i]), fetched[i], weather[i])
  {
    assert fetched[..i + 1][..i] == fetched[..i] && weather[..i + 1][..i] == weather[..i];
  }

  lemma OfAppend(p: TopicPartition, records: seq<Record>, r: Record)
    ensures Of(p, records + [r]) == Of(p, records) + (if r.source == p then [r] else [])
  {
    assert (records + [r])[..|records|] == records;
  }

  /** One more record, as one partition sees it. */
  lemma TakeIsLocal(b: Batch, r: Record, w: Weather, p: TopicPartition)
    ensures var b' := Take(b, r, w); var done := HandleRecord(b.starts, r, w).done;
      if r.source != p || p in b.blocked then
        Of(p, b'.processed) == Of(p, b.processed) && (p in b'.blocked <==> p in b.blocked)
      else if done then
        Of(p, b'.processed) == Of(p, b.processed) + [r] && p !in b'.blocked
      else
        Of(p, b'.processed) == Of(p, b.processed) && p in b'.blocked
  {
    OfAppend(p, b.processed, r);
  }

  /** In one poll, whatever the interleaving: the acknowledged records of a partition are a
      prefix of its fetched ones, all of them exactly when the partition is not blocked. */
  lemma {:induction false} AcknowledgedIsPrefix(s: Starts, fetched: seq<Record>, weather: seq<Weather>,
          p: TopicPartition)
    requires |weather| == |fetched|
    ensures var b := Poll(s, fetched, weather);
      && Of(p, b.processed) <= Of(p, fetched)
      && (p !in b.blocked <==> Of(p, b.processed) == Of(p, fetched))
    decreases |fetched|
  {
    if fetched != [] {
      var n := |fetched| - 1;
      AcknowledgedIsPrefix(s, fetched[..n], weather[..n], p);
      TakeIsLocal(Poll(s, fetched[..n], weather[..n]), fetched[n], weather[n], p);
    }
  }

  lemma BackedStays(s: Starts, s': Starts, r: Record)
    requires Preserves(s, s') && Backed(s, r)
    ensures Backed(s', r)
  {
  }

  /** Every acknowledged record is backed at the end of the poll, and no workflow input and
      no conflict row that existed before it, or that it made, has changed. */
  lemma {:induction false} AcknowledgedIsBacked(s: Starts, fetched: seq<Record>, weather: seq<Weather>)
    requires |weather| == |fetched|
    ensures var b := Poll(s, fetched, weather);
      && Preserves(s, b.starts)
      && forall r :: r in b.processed ==> Backed(b.starts, r)
    decreases |fetched|
  {
    if fetched != [] {
      var n := |fetched| - 1;
      AcknowledgedIsBacked(s, fetched[..n], weather[..n]);
      var b := Poll(s, fetched[..n], weather[..n]);
      HandlingOnlyAdds(b.starts, fetched[n], weather[n]);
      DoneMeansBacked(b.starts, fetched[n], weather[n]);
      forall r | r in b.processed
        ensures Backed(HandleRecord(b.starts, fetched[n], weather[n]).starts, r)
      {
        BackedStays(b.starts, HandleRecord(b.starts, fetched[n], weather[n]).starts, r);
      }
    }
  }

  /** A crash between the work and the commit is harmless: a backed record that is
      delivered again changes nothing, and unless something fails it is done again. */
  lemma RedeliveryChangesNothing(s: Starts, r: Record, w: Weather)
    requires Backed(s, r)
    ensures var h := HandleRecord(s, r, w);
      && h.starts == s
      && (!w.startFails && !w.lookupFails && !w.reportFails
          && (r.event.None? || ReportIsWellFormed(r.event.value)) ==>
            h.done)
  {
  }

  /** The first conflict filed under an event ID is that event's own, and stays. */
  lemma FirstConflictIsItsOwn(s: Starts, r: Record, w: Weather)
    requires r.event.Some? && r.event.value.eventId !in s.conflicts
    ensures var s' := HandleRecord(s, r, w).starts; var ev := r.event.value;
      ev.eventId in s'.conflicts ==>
        var c := s'.conflicts[ev.eventId];
        && c.filing == ev.filing && c.requested == Requested(ev) && c.existing != c.requested
        && WorkflowID(ev.filing) in s.inputs && s.inputs[WorkflowID(ev.filing)] == Some(c.existing)
  {
  }

  /** What the handler of one event leaves. A free workflow ID gets the event's own filing and
      scenario, unless the start fails without effect; a taken one keeps what it holds. */
  lemma HandlerLeavesInputs(s: Starts, ev: FilingEvent, w: Weather)
    ensures var s' := HandleEvent(s, ev, w).starts; var id := WorkflowID(ev.filing);
      s'.inputs == if id !in s.inputs && (!w.startFails || w.startLands)
                   then s.inputs[id := Some(FilingInput(ev.filing, ev.scenario))] else s.inputs
  {
  }

  /** Handling an event files a clash: nothing fails before the report, the report lands and can be
      filed, and the workflow holds another filing or scenario. */
  predicate Clashes(s: Starts, ev: FilingEvent, w: Weather) {
    var id := WorkflowID(ev.filing);
    && !w.startFails && !w.lookupFails && (!w.reportFails || w.reportLands)
    && id in s.inputs && s.inputs[id].Some? && s.inputs[id].value.filing.filingId != ""
    && s.inputs[id].value != FilingInput(ev.filing, ev.scenario)
    && ev.eventId != "" && ev.filing.filingId != "" && ev.filing.taxYear != 0
  }

  /** Then, and only then, it adds a row under a free event ID, which names its filing, the input
      that the workflow holds and the one it asks for. */
  lemma HandlerFilesExactly(s: Starts, ev: FilingEvent, w: Weather)
    ensures HandleEvent(s, ev, w).starts.conflicts ==
              if Clashes(s, ev, w) && ev.eventId !in s.conflicts then
                s.conflicts[ev.eventId := StartConflict(ev.filing, s.inputs[WorkflowID(ev.filing)].value,
                                                       FilingInput(ev.filing, ev.scenario))]
              else s.conflicts
  {
  }

  // ---------- What a poll leaves ----------

  /** The turn of a record comes unless an earlier one of its partition was left behind. */
  predicate HasTurn(s: Starts, fetched: seq<Record>, weather: seq<Weather>, i: nat)
    requires |weather| == |fetched|
  {
    i < |fetched| && fetched[i].source !in Poll(s, fetched[..i], weather[..i]).blocked
  }

  /** A record's turn makes a workflow of this ID, unless there is one. */
  predicate StartsAt(s: Starts, fetched: seq<Record>, weather: seq<Weather>, i: nat, id: string)
    requires |weather| == |fetched|
  {
    && HasTurn(s, fetched, weather, i) && fetched[i].event.Some? && WorkflowID(fetched[i].event.value.filing) == id
    && (!weather[i].startFails || weather[i].startLands)
  }

  lemma TakeStarts(b: Batch, r: Record, w: Weather, id: string)
    requires id !in b.starts.inputs
    ensures var inputs := Take(b, r, w).starts.inputs;
      if r.source !in b.blocked && r.event.Some? && WorkflowID(r.event.value.filing) == id
          && (!w.startFails || w.startLands)
      then id in inputs && inputs[id] == Some(FilingInput(r.event.value.filing, r.event.value.scenario))
      else id !in inputs
  {
    if r.event.Some? { HandlerLeavesInputs(b.starts, r.event.value, w); }
  }

  lemma StartsAlike(s: Starts, fetched: seq<Record>, weather: seq<Weather>, n: nat, i: nat, id: string)
    requires |weather| == |fetched| && i < n <= |fetched|
    ensures StartsAt(s, fetched[..n], weather[..n], i, id) <==> StartsAt(s, fetched, weather, i, id)
  {
    assert fetched[..n][..i] == fetched[..i] && weather[..n][..i] == weather[..i];
  }

  /** A workflow ID that is free before a poll is taken by the first record whose turn comes and
      whose start takes effect, acknowledged or not, and by no other. */
  lemma {:induction false} FirstStartWins(s: Starts, fetched: seq<Record>, weather: seq<Weather>, id: string)
    returns (first: Option<nat>)
    requires |weather| == |fetched| && id !in s.inputs
    ensures var inputs := Poll(s, fetched, weather).starts.inputs;
      match first
      case None => id !in inputs && forall i: nat :: !StartsAt(s, fetched, weather, i, id)
      case Some(k) =>
        && StartsAt(s, fetched, weather, k, id) && (forall i: nat :: i < k ==> !StartsAt(s, fetched, weather, i, id))
        && var ev := fetched[k].event.value; Lookup(inputs, id) == Some(Some(FilingInput(ev.filing, ev.scenario)))
    decreases |fetched|
  {
    first := None;
    if fetched != [] {
      var n := |fetched| - 1;
      var b := Poll(s, fetched[..n], weather[..n]);
      first := FirstStartWins(s, fetched[..n], weather[..n], id);
      forall i: nat | i < n
        ensures StartsAt(s, fetched[..n], weather[..n], i, id) <==> StartsAt(s, fetched, weather, i, id)
      {
        StartsAlike(s, fetched, weather, n, i, id);
      }
      if first.Some? {
        HandlingOnlyAdds(b.starts, fetched[n], weather[n]);
      } else {
        TakeStarts(b, fetched[n], weather[n], id);
        first := if StartsAt(s, fetched, weather, n, id) then Some(n) else None;
      }
    }
  }

  /** A record's turn files a clash under this event ID. */
  predicate FilesAt(s: Starts, fetched: seq<Record>, weather: seq<Weather>, i: nat, eventId: string)
    requires |weather| == |fetched|
  {
    && HasTurn(s, fetched, weather, i) && fetched[i].event.Some? && fetched[i].event.value.eventId == eventId
    && Clashes(Poll(s, fetched[..i], weather[..i]).starts, fetched[i].event.value, weather[i])
  }

  lemma TakeFiles(b: Batch, r: Record, w: Weather, eventId: string)
    requires eventId !in b.starts.conflicts
    ensures var conflicts := Take(b, r, w).starts.conflicts;
      if r.source !in b.blocked && r.event.Some? && r.event.value.eventId == eventId
          && Clashes(b.starts, r.event.value, w)
      then
        var ev := r.event.value;
        Lookup(conflicts, eventId) == Some(StartConflict(ev.filing, b.starts.inputs[WorkflowID(ev.filing)].value,
                                                        FilingInput(ev.filing, ev.scenario)))
      else eventId !in conflicts
  {
    if r.event.Some? { HandlerFilesExactly(b.starts, r.event.value, w); }
  }

  lemma FilesAlike(s: Starts, fetched: seq<Record>, weather: seq<Weather>, n: nat, i: nat, eventId: string)
    requires |weather| == |fetched| && i < n <= |fetched|
    ensures FilesAt(s, fetched[..n], weather[..n], i, eventId) <==> FilesAt(s, fetched, weather, i, eventId)
  {
    assert fetched[..n][..i] == fetched[..i] && weather[..n][..i] == weather[..i];
  }

  /** So is an event ID in the conflict table: the first clash that is filed keeps the row, which
      names its filing, the input that the workflow held at its turn, and the one it asked for. */
  lemma {:induction false} FirstClashIsKept(s: Starts, fetched: seq<Record>, weather: seq<Weather>, eventId: string)
    returns (first: Option<nat>)
    requires |weather| == |fetched| && eventId !in s.conflicts
    ensures var conflicts := Poll(s, fetched, weather).starts.conflicts;
      match first
      case None => eventId !in conflicts && forall i: nat :: !FilesAt(s, fetched, weather, i, eventId)
      case Some(k) =>
        && FilesAt(s, fetched, weather, k, eventId)
        && (forall i: nat :: i < k ==> !FilesAt(s, fetched, weather, i, eventId))
        && var ev := fetched[k].event.value;
          var held := Poll(s, fetched[..k], weather[..k]).starts.inputs[WorkflowID(ev.filing)];
          held.Some? && Lookup(conflicts, eventId) ==
            Some(StartConflict(ev.filing, held.value, FilingInput(ev.filing, ev.scenario)))
    decreases |fetched|
  {
    first := None;
    if fetched != [] {
      var n := |fetched| - 1;
      var b := Poll(s, fetched[..n], weather[..n]);
      first := FirstClashIsKept(s, fetched[..n], weather[..n], eventId);
      forall i: nat | i < n
        ensures FilesAt(s, fetched[..n], weather[..n], i, eventId) <==> FilesAt(s, fetched, weather, i, eventId)
      {
        FilesAlike(s, fetched, weather, n, i, eventId);
      }
      if first.Some? {
        HandlingOnlyAdds(b.starts, fetched[n], weather[n]);
        assert fetched[..n][..first.value] == fetched[..first.value];
        assert weather[..n][..first.value] == weather[..first.value];
      } else {
        TakeFiles(b, fetched[n], weather[n], eventId);
        first := if FilesAt(s, fetched, weather, n, eventId) then Some(n) else None;
      }
    }
  }

  // ---------- The operator's direct start ----------

  datatype StartError = EnqueueFailed | VerificationFailed | ReportFailed | AlreadyStarted(existing: FilingInput)

  /** A clash is reported under an event ID made from a digest of both inputs. */
  function DirectEvent(existing: FilingInput, requested: FilingInput,
          digest: (FilingInput, FilingInput) -> string): FilingEvent
  {
    FilingEvent("opsctl-" + digest(existing, requested), requested.filing, requested.scenario)
  }

  datatype Started = Started(starts: Starts, error: Option<StartError>)

  function DirectStart(s: Starts, requested: FilingInput, w: Weather,
          digest: (FilingInput, FilingInput) -> string): Started
  {
    var id := WorkflowID(requested.filing);
    var ev := FilingEvent("", requested.filing, requested.scenario);
    if w.startFails then Started(if w.startLands then StartWorkflow(s, ev) else s, Some(EnqueueFailed))
    else
      var started := StartWorkflow(s, ev);
      var stored := Decoded(started.inputs[id]);
      if w.lookupFails || stored.None? then Started(started, Some(VerificationFailed))
      else
        var existing := stored.value;
        if existing == requested then Started(started, None)
        else
          var report := DirectEvent(existing, requested, digest);
          if !ReportIsWellFormed(report) then Started(started, Some(ReportFailed))
          else if w.reportFails then
            Started(if w.reportLands then RecordConflict(started, report, existing) else started, Some(ReportFailed))
          else Started(RecordConflict(started, report, existing), Some(AlreadyStarted(existing)))
  }

  /** A direct start that reports success is backed by a workflow with exactly the requested
      input; one that reports a clash has it on file; and whatever happens, no input and no
      conflict row that was there changes. */
  lemma DirectStartIsVerified(s: Starts, requested: FilingInput, w: Weather,
          digest: (FilingInput, FilingInput) -> string)
    ensures var r := DirectStart(s, requested, w, digest); var id := WorkflowID(requested.filing);
      && Preserves(s, r.starts)
      && (r.error.None? ==> id in r.starts.inputs && r.starts.inputs[id] == Some(requested))
      && (r.error.Some? && r.error.value.AlreadyStarted? ==>
            var existing := r.error.value.existing;
            && existing != requested
            && id in s.inputs && s.inputs[id] == Some(existing) && r.starts.inputs == s.inputs
            && DirectEvent(existing, requested, digest).eventId in r.starts.conflicts)
      && (r.error.None? <==>
            && !w.startFails && !w.lookupFails && requested.filing.filingId != ""
            && (id in s.inputs ==> s.inputs[id] == Some(requested)))
  {
  }

  /** Which error a direct start reports, as the operator can tell from what was stored before. */
  lemma DirectStartReportsExactly(s: Starts, requested: FilingInput, w: Weather,
          digest: (FilingInput, FilingInput) -> string)
    ensures var error := DirectStart(s, requested, w, digest).error; var id := WorkflowID(requested.filing);
      var held := if id in s.inputs then s.inputs[id] else Some(requested);
      var readable := held.Some? && held.value.filing.filingId != "";
      && (error == Some(EnqueueFailed) <==> w.startFails)
      && (error == Some(VerificationFailed) <==> !w.startFails && (w.lookupFails || !readable))
      && (error.None? <==> !w.startFails && !w.lookupFails && readable && held.value == requested)
      && (error == Some(ReportFailed) <==>
            && !w.startFails && !w.lookupFails && readable && held.value != requested
            && (w.reportFails || requested.filing.filingId == "" || requested.filing.taxYear == 0))
      && (error.Some? && error.value.AlreadyStarted? ==> held == Some(error.value.existing))
  {
    assert "opsctl-"[0] == 'o';
  }

  /** What a direct start leaves, whatever error it reports: one new workflow with the requested
      input, or one new conflict row that names the requested filing, the input the workflow
      holds, and the request; nothing else, and never a row for equal inputs. */
  lemma DirectStartLeavesExactly(s: Starts, requested: FilingInput, w: Weather,
          digest: (FilingInput, FilingInput) -> string)
    ensures var r := DirectStart(s, requested, w, digest); var id := WorkflowID(requested.filing);
      && r.starts.inputs == (if id !in s.inputs && (!w.startFails || w.startLands)
                             then s.inputs[id := Some(requested)] else s.inputs)
      && (r.starts.conflicts != s.conflicts ==>
            && id in s.inputs && s.inputs[id].Some?
            && var existing := s.inputs[id].value; var key := "opsctl-" + digest(existing, requested);
              && existing != requested && key !in s.conflicts
              && r.starts.conflicts == s.conflicts[key := StartConflict(requested.filing, existing, requested)])
      && (r.error.Some? && r.error.value.AlreadyStarted? ==>
            var existing := r.error.value.existing; var key := "opsctl-" + digest(existing, requested);
            && key in r.starts.conflicts
            && (key !in s.conflicts ==>
                  r.starts.conflicts[key] == StartConflict(requested.filing, existing, requested)))
  {
  }

  /** A direct start and an event for the same input are interchangeable: after either, the
      other finds its work done and changes nothing. */
  lemma StartsConverge(s: Starts, r: Record, w: Weather, again: Weather, digest: (FilingInput, FilingInput) -> string)
    requires r.event.Some? && !again.startFails && !again.lookupFails
    ensures var requested := Requested(r.event.value); var id := WorkflowID(r.event.value.filing);
      var handled := HandleRecord(s, r, w); var direct := DirectStart(s, requested, w, digest);
      && (handled.done && (id in s.inputs ==> s.inputs[id] == Some(requested)) ==>
            DirectStart(handled.starts, requested, again, digest) == Started(handled.starts, None))
      && (direct.error.None? ==> HandleRecord(direct.starts, r, again) == Handled(direct.starts, true))
  {
  }

  // ---------- The consumer loop ----------

  class Worker {
    var inputs: map<string, Option<FilingInput>>
    var conflicts: map<string, StartConflict>

    function State(): Starts
      reads this
    {
      Starts(inputs, conflicts)
    }

    constructor (inputs: map<string, Option<FilingInput>>, conflicts: map<string, StartConflict>)
      ensures State() == Starts(inputs, conflicts)
    {
      this.inputs, this.conflicts := inputs, conflicts;
    }

    /** The handler of one record: false leaves the record unacknowledged. */
    method Consume(rec: Record, w: Weather) returns (done: bool)
      modifies this
      ensures HandleRecord(old(State()), rec, w) == Handled(State(), done)
    {
      if rec.event.None? {
        return true;
      }
      var ev := rec.event.value;
      var id := WorkflowID(ev.filing);
      var requested := FilingInput(ev.filing, ev.scenario);
      if !w.startFails || w.startLands {
        if id !in inputs {
          inputs := inputs[id := Some(requested)];
        }
      }
      if w.startFails {
        return false;
      }
      if w.lookupFails || id !in inputs {
        return false;
      }
      var existing := Decoded(inputs[id]);
      if existing.None? {
        return false;
      }
      if existing.value != requested {
        if !ReportIsWellFormed(ev) {
          return false;
        }
        if (!w.reportFails || w.reportLands) && ev.eventId !in conflicts {
          conflicts := conflicts[ev.eventId := StartConflict(ev.filing, existing.value, requested)];
        }
        return !w.reportFails;
      }
      return true;
    }

    /** The operator's direct start. */
    method EnqueueFiling(requested: FilingInput, w: Weather, digest: (FilingInput, FilingInput) -> string)
        returns (err: Option<StartError>)
      modifies this
      ensures DirectStart(old(State()), requested, w, digest) == Started(State(), err)
    {
      var id := WorkflowID(requested.filing);
      if (!w.startFails || w.startLands) && id !in inputs {
        inputs := inputs[id := Some(requested)];
      }
      if w.startFails {
        return Some(EnqueueFailed);
      }
      if w.lookupFails || id !in inputs {
        return Some(VerificationFailed);
      }
      var existing := Decoded(inputs[id]);
      if existing.None? {
        return Some(VerificationFailed);
      }
      if existing.value != requested {
        var conflictId := "opsctl-" + digest(existing.value, requested);
        var refused := conflictId == "" || requested.filing.filingId == "" || requested.filing.taxYear == 0;
        if !refused && (!w.reportFails || w.reportLands) && conflictId !in conflicts {
          conflicts := conflicts[conflictId := StartConflict(requested.filing, existing.value, requested)];
        }
        if refused || w.reportFails {
          return Some(ReportFailed);
        }
        return Some(AlreadyStarted(existing.value));
      }
      return None;
    }

    /** One poll: the records to commit. */
    method PollOnce(fetched: seq<Record>, weather: seq<Weather>) returns (processed: seq<Record>)
      requires |weather| == |fetched|
      modifies this
      ensures Poll(old(State()), fetched, weather).starts == State()
      ensures Poll(old(State()), fetched, weather).processed == processed
      ensures forall p :: Of(p, processed) <= Of(p, fetched)
      ensures forall r :: r in processed ==> Backed(State(), r)
      ensures Preserves(old(State()), State())
    {
      processed := [];
      var blocked: set<TopicPartition> := {};
      ghost var start := State();
      for i := 0 to |fetched|
        invariant Poll(start, fetched[..i], weather[..i]) == Batch(State(), processed, blocked)
      {
        var rec := fetched[i];
        PollStep(start, fetched, weather, i);
        if rec.source !in blocked {
          var done := Consume(rec, weather[i]);
          if done {
            processed := processed + [rec];
          } else {
            blocked := blocked + {rec.source};
          }
        }
      }
      assert fetched[..|fetched|] == fetched && weather[..|fetched|] == weather;
      AcknowledgedIsBacked(start, fetched, weather);
      forall p {
        AcknowledgedIsPrefix(start, fetched, weather, p);
      }
    }
  }
}
