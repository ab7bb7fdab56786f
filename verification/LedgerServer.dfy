/** The provider server as objects on the heap. Go maps and submission records are shared
    by reference, so the rollback snapshot must be a deep copy; every locked section is
    proved to be one event of the ledger specification. */
module LedgerServer {
  import opened Domain
  import opened ProviderLedger

  class Submission {
    var id: string
    var filingId: string
    var scenario: Scenario
    var callbackUrl: string
    var status: Progress
    var outcome: Outcome
    var attempts: nat
    var callbackFinished: bool
    /** The ID under which the record was filed. */
    ghost const key: string

    function View(): Entry
      reads this
    {
      Entry(id, filingId, scenario, callbackUrl, status, outcome, attempts, callbackFinished)
    }

    constructor (e: Entry, ghost key: string)
      ensures View() == e && this.key == key
    {
      this.key := key;
      id, filingId, scenario, callbackUrl := e.id, e.filingId, e.scenario, e.callbackUrl;
      status, outcome, attempts, callbackFinished := e.status, e.outcome, e.attempts, e.callbackFinished;
    }
  }

  lemma Overwrite<K, V>(m: map<K, V>, k: K, a: V, b: V)
    ensures m[k := a][k := b] == m[k := b]
    ensures k in m && m[k] == b ==> m[k := a][k := b] == m
  {
  }

  /** The map object behind the field of submissions; `entries` is what it holds. */
  class SubmissionTable {
    var rows: map<string, Submission>
    ghost var entries: map<string, Entry>
    /** The record objects in use. */
    ghost var records: set<Submission>

    /** The records hold the entries, and no record is reachable under two IDs. */
    ghost predicate Valid()
      reads this, records
    {
      && rows.Keys == entries.Keys
      && (forall id :: id in rows ==> rows[id] in records && rows[id].key == id && rows[id].View() == entries[id])
    }

    constructor ()
      ensures Valid() && rows == map[] && entries == map[] && records == {}
    {
      rows, entries, records := map[], map[], {};
    }

    method Insert(id: string, e: Entry)
      requires Valid()
      modifies this
      ensures Valid() && entries == old(entries)[id := e]
      ensures id in rows && fresh(rows[id]) && rows == old(rows)[id := rows[id]] && records == old(records) + {rows[id]}
    {
      var sub := new Submission(e, id);
      rows, entries, records := rows[id := sub], entries[id := e], records + {sub};
    }

    method AddAttempt(id: string)
      requires Valid() && id in rows
      modifies this`entries, rows[id]
      ensures Valid() && rows == old(rows) && entries ==
          old(entries)[id := old(entries)[id].(attempts := old(entries)[id].attempts + 1)]
    {
      rows[id].attempts := rows[id].attempts + 1;
      entries := entries[id := rows[id].View()];
    }

    method SetProgress(id: string, status: Progress, outcome: Outcome)
      requires Valid() && id in rows
      modifies this`entries, rows[id]
      ensures Valid() && rows == old(rows) && entries ==
          old(entries)[id := old(entries)[id].(status := status, outcome := outcome)]
    {
      rows[id].status, rows[id].outcome := status, outcome;
      entries := entries[id := rows[id].View()];
    }

    method SetCallbackFinished(id: string, finished: bool)
      requires Valid() && id in rows
      modifies this`entries, rows[id]
      ensures Valid() && rows == old(rows) && entries ==
          old(entries)[id := old(entries)[id].(callbackFinished := finished)]
    {
      rows[id].callbackFinished := finished;
      entries := entries[id := rows[id].View()];
    }
  }

  /** The map object behind one field of attempt counters. */
  class CountTable {
    var counts: map<string, nat>

    constructor (counts: map<string, nat>)
      ensures this.counts == counts
    {
      this.counts := counts;
    }

    function Get(id: string): nat
      reads this
    {
      Counter(counts, id)
    }

    method Increment(id: string)
      modifies this
      ensures counts == old(counts)[id := old(Get(id)) + 1]
    {
      counts := counts[id := Get(id) + 1];
    }
  }

  datatype Snapshot = Snapshot(
    subs: SubmissionTable, rateLimits: CountTable, serverErrors: CountTable, timeouts: CountTable, metrics: Metrics)
  {
    ghost function View(): Ledger
      reads subs, rateLimits, serverErrors, timeouts
    {
      Ledger(subs.entries, rateLimits.counts, serverErrors.counts, timeouts.counts, metrics)
    }

    ghost predicate Valid()
      reads subs, subs.records
    {
      && rateLimits != serverErrors && rateLimits != timeouts && serverErrors != timeouts
      && subs.Valid()
    }
  }

  /** Nothing in the snapshot existed in the old state. */
  twostate predicate AllNew(new s: Snapshot)
    reads s.subs
  {
    && fresh(s.subs) && fresh(s.rateLimits) && fresh(s.serverErrors) && fresh(s.timeouts)
    && fresh(s.subs.records)
  }

  method CloneCounts(source: CountTable) returns (clone: CountTable)
    ensures fresh(clone) && clone.counts == source.counts
  {
    clone := new CountTable(map[]);
    var left := source.counts.Keys;
    while left != {}
      invariant left <= source.counts.Keys && fresh(clone) && source.counts == old(source.counts)
      invariant clone.counts.Keys == source.counts.Keys - left
      invariant forall k :: k in clone.counts ==> clone.counts[k] == source.counts[k]
    {
      var k :| k in left;
      clone.counts := clone.counts[k := source.counts[k]];
      left := left - {k};
    }
  }

  method CloneTable(source: SubmissionTable) returns (clone: SubmissionTable)
    requires source.Valid()
    ensures fresh(clone) && fresh(clone.records) && clone.Valid() && clone.entries == source.entries
  {
    clone := new SubmissionTable();
    var left := source.rows.Keys;
    while left != {}
      invariant left <= source.rows.Keys && fresh(clone) && clone.Valid()
      invariant fresh(clone.records)
      invariant clone.entries == map id | id in source.entries && id !in left :: source.entries[id]
    {
      var id :| id in left;
      clone.Insert(id, source.rows[id].View());
      left := left - {id};
    }
  }

  method CloneState(state: Snapshot) returns (clone: Snapshot)
    requires state.Valid()
    ensures AllNew(clone) && clone.Valid() && clone.View() == state.View()
  {
    var subs := CloneTable(state.subs);
    var rl := CloneCounts(state.rateLimits);
    var se := CloneCounts(state.serverErrors);
    var tl := CloneCounts(state.timeouts);
    clone := Snapshot(subs, rl, se, tl, state.metrics);
  }

  /** A POST for a known operation, spelled out; the attempt is already counted in `l`. */
  ghost predicate Repeats(l: Ledger, req: SubmitRequest, l': Ledger, response: Response)
    requires req.id in l.subs
  {
    var e := l.subs[req.id];
    && l'.rateLimits == l.rateLimits && l'.serverErrors == l.serverErrors && l'.timeouts == l.timeouts
    && if e.filingId != req.filingId || e.scenario != req.scenario then
         response == IdentityConflict && l'.subs == l.subs && l'.metrics == l.metrics
       else
         && response == StatusFromOutcome(e, "")
         && l'.subs == l.subs[req.id := e.(attempts := e.attempts + 1)]
         && l'.metrics == l.metrics.(duplicates := l.metrics.duplicates + 1)
  }

  /** The branch for a known operation, on the submissions and the metrics alone. */
  ghost predicate Known(entries: map<string, Entry>, metrics: Metrics, req: SubmitRequest,
                        entries': map<string, Entry>, metrics': Metrics, response: Response)
    requires req.id in entries
  {
    var e := entries[req.id];
    if e.filingId != req.filingId || e.scenario != req.scenario then
      && response == IdentityConflict && entries' == entries && metrics' == metrics
    else
      && response == StatusFromOutcome(e, "")
      && entries' == entries[req.id := e.(attempts := e.attempts + 1)]
      && metrics' == metrics.(duplicates := metrics.duplicates + 1)
  }

  lemma KnownRepeats(l: Ledger, req: SubmitRequest, l': Ledger, answer: Response,
                     entries: map<string, Entry>, metrics: Metrics, response: Response)
    requires req.id in l.subs && Repeats(l, req, l', answer)
    requires Known(l.subs, l.metrics, req, entries, metrics, response)
    ensures entries == l'.subs && metrics == l'.metrics && response == answer
  {
  }

  /** A POST for a new operation, spelled out; the attempt is already counted in `l`. */
  ghost predicate Begins(l: Ledger, req: SubmitRequest, l': Ledger, response: Response) {
    var r := Refusal(CellOf(l, req.id).(entry := None), req);
    && l'.rateLimits == Bump(l.rateLimits, req.id, r.cell.rateLimit)
    && l'.serverErrors == Bump(l.serverErrors, req.id, r.cell.serverError)
    && l'.timeouts == Bump(l.timeouts, req.id, r.cell.timeout)
    && if r.response.Some? then
         && response == r.response.value && l'.subs == l.subs
         && l'.metrics == Plus(l.metrics, r.charge)
       else
         var p := Record(Cell(None, 0, 0, 0), req);
         && response == p.response && l'.subs == l.subs[req.id := p.cell.entry.value]
         && l'.metrics == l.metrics.(submissions := l.metrics.submissions + 1)
  }

  function CountAttempt(m: Metrics): Metrics {
    m.(submissionAttempts := m.submissionAttempts + 1)
  }

  lemma AttemptSpelledOut(before: Ledger, req: SubmitRequest)
    ensures var (l', response) := Attempt(before, req); var l := before.(metrics := CountAttempt(before.metrics));
      if req.id in l.subs then Repeats(l, req, l', response) else Begins(l, req, l', response)
  {
    assert req.id in before.subs ==> before.subs[req.id := before.subs[req.id]] == before.subs;
  }

  class Server {
    var subs: SubmissionTable
    var rlAttempts: CountTable
    var seAttempts: CountTable
    var tlAttempts: CountTable
    var metrics: Metrics
    /** Whether a database backs the ledger, and the row it holds. */
    const pool: bool
    ghost var row: Ledger
    /** The completion goroutines now running. */
    var workers: map<string, Stage>

    function Live(): Snapshot
      reads `subs, `rlAttempts, `seAttempts, `tlAttempts, `metrics
    {
      Snapshot(subs, rlAttempts, seAttempts, tlAttempts, metrics)
    }

    ghost predicate Valid()
      reads `subs, `rlAttempts, `seAttempts, `tlAttempts, subs, subs.records
    {
      && rlAttempts != seAttempts && rlAttempts != tlAttempts && seAttempts != tlAttempts
      && subs.Valid()
    }

    /** The tables are those of before, with at most one new record, filed under `id`. */
    twostate predicate SameTables(id: string)
      reads this, subs
    {
      && subs == old(subs) && rlAttempts == old(rlAttempts) && seAttempts == old(seAttempts)
          && tlAttempts == old(tlAttempts)
      && (subs.records == old(subs.records)
          || (id in subs.rows && fresh(subs.rows[id]) && subs.records == old(subs.records) + {subs.rows[id]}))
    }

    ghost function View(): Ledger
      reads `subs, `rlAttempts, `seAttempts, `tlAttempts, `metrics, subs, rlAttempts, seAttempts, tlAttempts
    {
      Ledger(subs.entries, rlAttempts.counts, seAttempts.counts, tlAttempts.counts, metrics)
    }

    /** What a restart would find. Without a database the live ledger is all there is. */
    ghost function Stored(): Ledger
      reads this, subs, rlAttempts, seAttempts, tlAttempts
    {
      if pool then row else View()
    }

    ghost function State(): Provider
      reads this, subs, rlAttempts, seAttempts, tlAttempts
    {
      Provider(View(), Stored(), workers)
    }

    /** The submissions of the stored row become live records. */
    method Decode(stored: map<string, Entry>)
      requires subs.rows == map[] && subs.Valid()
      modifies subs
      ensures subs.Valid() && subs.entries == stored
    {
      var left := stored.Keys;
      while left != {}
        invariant left <= stored.Keys && subs == old(subs) && subs.Valid()
        invariant subs.entries == map id | id in stored && id !in left :: stored[id]
        modifies subs
      {
        var id :| id in left;
        subs.Insert(id, stored[id]);
        left := left - {id};
      }
    }

    method ResumePending()
      requires subs.Valid()
      modifies this`workers
      ensures workers == Resumed(View())
    {
      var pending: map<string, Stage> := map[];
      var left := subs.rows.Keys;
      while left != {}
        invariant left <= subs.rows.Keys
        invariant forall id :: id in pending ==> id in subs.entries && id !in left && pending[id] == Waiting
        invariant forall id :: id in subs.entries && id !in left ==>
                    (id in pending <==> subs.entries[id].status == Processing || !subs.entries[id].callbackFinished)
      {
        var id :| id in left;
        var sub := subs.rows[id];
        if sub.status == Processing || !sub.callbackFinished {
          pending := pending[id := Waiting];
        }
        left := left - {id};
      }
      workers := pending;
    }

    /** Starting with a database loads its row and resumes every unfinished completion. */
    constructor Load(stored: Ledger)
      ensures Valid() && pool
      ensures State() == Provider(stored, stored, Resumed(stored))
    {
      subs := new SubmissionTable();
      rlAttempts := new CountTable(stored.rateLimits);
      seAttempts := new CountTable(stored.serverErrors);
      tlAttempts := new CountTable(stored.timeouts);
      metrics, pool, row, workers := stored.metrics, true, stored, map[];
      new;
      Decode(stored.subs);
      ResumePending();
    }

    /** The one record that a section about `id` may write. */
    ghost function Touched(id: string): set<Submission>
      reads `subs, subs
    {
      if id in subs.rows then {subs.rows[id]} else {}
    }

    /** Writing the row succeeds or leaves it as it was. */
    method PersistLocked(saved: bool) returns (ok: bool)
      modifies this`row
      ensures ok == (saved || !pool)
      ensures row == if pool && ok then View() else old(row)
    {
      if !pool {
        return true;
      }
      if saved {
        row := View();
      }
      return saved;
    }

    method Restore(state: Snapshot)
      modifies this
      ensures Live() == state && row == old(row) && workers == old(workers)
    {
      subs, rlAttempts, seAttempts, tlAttempts := state.subs, state.rateLimits, state.serverErrors, state.timeouts;
      metrics := state.metrics;
    }

    method SaveOrFail(before: Snapshot, saved: bool) returns (ok: bool)
      requires Valid() && before.Valid()
      modifies this
      ensures Valid()
      ensures ok == (saved || !pool) && workers == old(workers)
      ensures ok ==> Live() == old(Live()) && row == if pool then View() else old(row)
      ensures !ok ==> Live() == before && row == old(row)
    {
      ok := PersistLocked(saved);
      if !ok {
        Restore(before);
      }
    }

    /** A POST for an operation already in the ledger. */
    method MutateKnown(req: SubmitRequest) returns (response: Response)
      requires Valid() && req.id in subs.rows
      modifies this`metrics, subs`entries, subs.rows[req.id]
      ensures Valid() && subs.rows == old(subs.rows) && subs.records == old(subs.records)
      ensures Known(old(subs.entries), old(metrics), req, subs.entries, metrics, response)
    {
      var existing := subs.rows[req.id];
      if existing.filingId != req.filingId || existing.scenario != req.scenario {
        return IdentityConflict;
      }
      response := StatusFromOutcome(existing.View(), "");
      subs.AddAttempt(req.id);
      metrics := metrics.(duplicates := metrics.duplicates + 1);
    }

    method RecordLocked(req: SubmitRequest)
      requires Valid() && req.id !in subs.rows
      modifies this`metrics, subs
      ensures Valid() && req.id in subs.rows && fresh(subs.rows[req.id])
      ensures subs.records == old(subs.records) + {subs.rows[req.id]}
      ensures subs.entries == old(subs.entries)[req.id := NewEntry(req)]
      ensures metrics == old(metrics).(submissions := old(metrics).submissions + 1)
    {
      subs.Insert(req.id, NewEntry(req));
      metrics := metrics.(submissions := metrics.submissions + 1);
    }

    method MutateUnknown(req: SubmitRequest) returns (response: Response)
      requires Valid() && req.id !in subs.rows
      modifies this`metrics, subs
      ensures Valid() && req.id in subs.rows && fresh(subs.rows[req.id])
      ensures subs.records == old(subs.records) + {subs.rows[req.id]}
      ensures var p := Record(Cell(None, 0, 0, 0), req);
        && subs.entries == old(subs.entries)[req.id := p.cell.entry.value]
        && response == p.response
      ensures metrics == old(metrics).(submissions := old(metrics).submissions + 1)
    {
      ghost var before, e := subs.entries, NewEntry(req);
      RecordLocked(req);
      response := AcceptedAnswer(req.id);
      if req.scenario == ScenarioReject {
        ghost var rejected := e.(status := Completed, outcome := OutcomeRejected);
        subs.SetProgress(req.id, Completed, OutcomeRejected);
        Overwrite(before, req.id, e, rejected);
        subs.SetCallbackFinished(req.id, true);
        Overwrite(before, req.id, rejected, rejected.(callbackFinished := true));
        response := RejectedAnswer(req.id, PERMANENT_FAILURE);
      }
    }

    function Counts(id: string): Cell
      reads this, rlAttempts, seAttempts, tlAttempts
    {
      Cell(None, rlAttempts.Get(id), seAttempts.Get(id), tlAttempts.Get(id))
    }

    /** The scenario switch for an operation not in the ledger: an answer without effect,
        or None when the operation is to be recorded. */
    method Refuse(req: SubmitRequest, ghost r: Refused) returns (response: Option<Response>)
      requires Valid() && r == Refusal(Counts(req.id), req)
      modifies this`metrics, rlAttempts, seAttempts, tlAttempts
      ensures rlAttempts.counts == Bump(old(rlAttempts.counts), req.id, r.cell.rateLimit)
      ensures seAttempts.counts == Bump(old(seAttempts.counts), req.id, r.cell.serverError)
      ensures tlAttempts.counts == Bump(old(tlAttempts.counts), req.id, r.cell.timeout)
      ensures metrics == if response.Some? then Plus(old(metrics), r.charge) else old(metrics)
      ensures response == r.response
    {
      response := None;
      if req.scenario == ScenarioRateLimitExhausted {
        metrics := metrics.(throttled := metrics.throttled + 1);
        return Some(RateLimited);
      }
      if req.scenario == ScenarioRateLimit {
        rlAttempts.Increment(req.id);
        if rlAttempts.Get(req.id) <= 2 {
          metrics := metrics.(throttled := metrics.throttled + 1);
          return Some(RateLimited);
        }
      } else if req.scenario == ScenarioTransientServerError {
        seAttempts.Increment(req.id);
        if seAttempts.Get(req.id) <= 2 {
          metrics := metrics.(transient := metrics.transient + 1);
          return Some(NoEffectOutage);
        }
      } else if req.scenario == ScenarioTimeoutLost {
        tlAttempts.Increment(req.id);
        if tlAttempts.Get(req.id) == 1 {
          return Some(GatewayTimeout);
        }
      }
    }

    ghost predicate Shows(l: Ledger)
      reads `subs, `rlAttempts, `seAttempts, `tlAttempts, `metrics, subs, rlAttempts, seAttempts, tlAttempts
    {
      && subs.entries == l.subs && rlAttempts.counts == l.rateLimits && seAttempts.counts == l.serverErrors
      && tlAttempts.counts == l.timeouts && metrics == l.metrics
    }

    method MutateNew(req: SubmitRequest, ghost l': Ledger, ghost answer: Response) returns (response: Response)
      requires Valid() && req.id !in subs.rows && Begins(View(), req, l', answer)
      modifies this`metrics, subs, rlAttempts, seAttempts, tlAttempts
      ensures Valid() && SameTables(req.id)
      ensures Shows(l') && response == answer
    {
      var refused := Refuse(req, Refusal(Counts(req.id), req));
      assert unchanged(subs, subs.records);
      if refused.Some? {
        return refused.value;
      }
      label counted:
      response := MutateUnknown(req);
      assert unchanged@counted(rlAttempts, seAttempts, tlAttempts);
    }

    method MutateAgain(req: SubmitRequest, ghost l': Ledger, ghost answer: Response) returns (response: Response)
      requires Valid() && req.id in subs.rows && Repeats(View(), req, l', answer)
      modifies this`metrics, subs`entries, subs.rows[req.id]
      ensures Valid() && SameTables(req.id)
      ensures Shows(l') && response == answer
    {
      ghost var l := View();
      response := MutateKnown(req);
      KnownRepeats(l, req, l', answer, subs.entries, metrics, response);
    }

    /** The mutations of one POST before its save, with the answer it will give. */
    method Mutate(req: SubmitRequest) returns (response: Response)
      requires Valid() && req.id != ""
      modifies this`metrics, subs, Touched(req.id), rlAttempts, seAttempts, tlAttempts
      ensures Valid() && SameTables(req.id)
      ensures View() == Attempt(old(View()), req).0 && response == Attempt(old(View()), req).1
    {
      AttemptSpelledOut(View(), req);
      ghost var (l', answer) := Attempt(View(), req);
      metrics := CountAttempt(metrics);
      if req.id in subs.rows {
        response := MutateAgain(req, l', answer);
      } else {
        response := MutateNew(req, l', answer);
      }
    }

    /** Taking the snapshot first keeps it clear of the mutations that follow. */
    method SnapshotAndMutate(req: SubmitRequest) returns (before: Snapshot, response: Response)
      requires Valid() && req.id != ""
      modifies this`metrics, subs, Touched(req.id), rlAttempts, seAttempts, tlAttempts
      ensures Valid() && SameTables(req.id)
      ensures before.Valid() && AllNew(before) && before.View() == old(View())
      ensures View() == Attempt(old(View()), req).0 && response == Attempt(old(View()), req).1
    {
      before := CloneState(Live());
      label cloned:
      response := Mutate(req);
      assert unchanged@cloned(before.subs);
      assert unchanged@cloned(before.subs.records);
      assert unchanged@cloned(before.rateLimits, before.serverErrors, before.timeouts);
    }

    /** The locked part of a POST: snapshot, mutate, save, and roll back when that fails.
        After a failed save the live state is the snapshot, which shares nothing with the
        objects used until then. */
    method Transact(req: SubmitRequest, saved: bool) returns (response: Response, ok: bool)
      requires Valid() && req.id != ""
      modifies this, subs, Touched(req.id), rlAttempts, seAttempts, tlAttempts
      ensures Valid() && workers == old(workers)
      ensures ok == (saved || !pool)
      ensures ok ==> View() == Attempt(old(View()), req).0 && response == Attempt(old(View()), req).1
      ensures ok ==> row == if pool then View() else old(row)
      ensures !ok ==> View() == old(View()) && row == old(row) && response == LedgerUnavailable
      ensures if ok then SameTables(req.id) else AllNew(Live())
    {
      var before;
      before, response := SnapshotAndMutate(req);
      ok := SaveOrFail(before, saved);
      if !ok {
        response := LedgerUnavailable;
      }
    }

    /** One POST is one event of the specification. */
    method HandleSubmit(req: SubmitRequest, saved: bool) returns (response: Response)
      requires Valid()
      modifies this, subs, Touched(req.id), rlAttempts, seAttempts, tlAttempts
      ensures Valid()
      ensures State() == OnSubmit(old(State()), req, saved || !pool)
      ensures response == ProviderLedger.HandleSubmit(old(View()), req, saved || !pool).1
      ensures if req.id == "" || saved || !pool then SameTables(req.id) else AllNew(Live())
    {
      if req.id == "" {
        return BadRequest;
      }
      var known := req.id in subs.rows;
      var ok;
      response, ok := Transact(req, saved);
      if !known && req.id in subs.rows && !subs.rows[req.id].callbackFinished {
        workers := workers[req.id := Waiting];
      }
    }

    method MarkCompleted(id: string, saved: bool) returns (ok: bool)
      requires Valid() && id in subs.rows
      modifies this`row, subs`entries, subs.rows[id]
      ensures Valid() && Live() == old(Live()) && subs.rows == old(subs.rows)
          && subs.records == old(subs.records) && workers == old(workers)
      ensures ok == (saved || !pool)
      ensures ok ==> subs.entries == old(subs.entries)[id := old(subs.entries)[id].(status := Completed,
          outcome := OutcomeAccepted)]
      ensures ok ==> row == if pool then View() else old(row)
      ensures !ok ==> subs.entries == old(subs.entries) && row == old(row)
    {
      var current := subs.rows[id];
      var oldStatus, oldOutcome := current.status, current.outcome;
      ghost var before, e := subs.entries, subs.entries[id];
      subs.SetProgress(id, Completed, OutcomeAccepted);
      ok := PersistLocked(saved);
      if !ok {
        subs.SetProgress(id, oldStatus, oldOutcome);
        Overwrite(before, id, e.(status := Completed, outcome := OutcomeAccepted), e);
      }
    }

    /** Completes an operation that is still processing; any other is as it should be. */
    method EnsureCompleted(id: string, saved: bool) returns (ok: bool)
      requires Valid() && id in subs.rows
      modifies this`row, subs`entries, subs.rows[id]
      ensures Valid() && Live() == old(Live()) && subs.rows == old(subs.rows)
          && subs.records == old(subs.records) && workers == old(workers)
      ensures var e := old(subs.entries)[id];
        && ok == (e.status != Processing || saved || !pool)
        && subs.entries == (if e.status == Processing && ok then old(subs.entries)[id := Complete(e)]
                            else old(subs.entries))
        && row == (if e.status == Processing && ok && pool then View() else old(row))
    {
      ok := true;
      if subs.rows[id].status == Processing {
        ok := MarkCompleted(id, saved);
      }
    }

    /** What a goroutine does next, once its operation is completed. */
    method Proceed(id: string)
      requires Valid() && id in subs.rows
      modifies this`workers
      ensures workers == if subs.entries[id].callbackFinished then old(workers) - {id} else old(workers)[id := Calling]
    {
      if subs.rows[id].callbackFinished {
        workers := workers - {id};
        return;
      }
      workers := workers[id := Calling];
    }

    /** The first locked section of a completion goroutine. */
    method Fire(id: string, saved: bool)
      requires Valid() && Lookup(workers, id) == Some(Waiting)
      modifies this`row, this`workers, subs`entries, Touched(id)
      ensures Valid() && Live() == old(Live()) && subs.records == old(subs.records)
      ensures State() == OnFire(old(State()), id, saved || !pool)
    {
      if id !in subs.rows {
        workers := workers - {id};
        return;
      }
      var ok := EnsureCompleted(id, saved);
      if !ok {
        workers := workers - {id};
        return;
      }
      Proceed(id);
    }

    /** The locked section that counts one delivered callback. */
    method CountDelivery(id: string, saved: bool) returns (delivered: bool)
      requires Valid() && Lookup(workers, id) == Some(Calling)
      requires id in subs.rows ==> subs.rows[id].scenario != ScenarioNoCallbackDone
      modifies this`metrics, this`row
      ensures Valid() && Live() == old(Live()).(metrics := metrics) && subs.records == old(subs.records)
          && delivered == (saved || !pool)
      ensures State() == OnDelivered(old(State()), id, saved || !pool)
    {
      metrics := metrics.(callbacksSent := metrics.callbacksSent + 1);
      delivered := PersistLocked(saved);
      if !delivered {
        metrics := metrics.(callbacksSent := metrics.callbacksSent - 1);
      }
    }

    method MarkFinished(id: string, saved: bool)
      requires Valid() && id in subs.rows
      modifies this`row, subs`entries, subs.rows[id]
      ensures Valid() && Live() == old(Live()) && subs.rows == old(subs.rows)
          && subs.records == old(subs.records) && workers == old(workers)
      ensures var e := old(subs.entries)[id]; var ok := saved || !pool;
        && subs.entries == old(subs.entries)[id := e.(callbackFinished := ok)]
        && row == if pool && ok then View() else old(row)
    {
      ghost var before, e := subs.entries, subs.entries[id];
      subs.SetCallbackFinished(id, true);
      var ok := PersistLocked(saved);
      if !ok {
        subs.SetCallbackFinished(id, false);
        Overwrite(before, id, e.(callbackFinished := true), e.(callbackFinished := false));
      }
    }

    /** The last locked section of a goroutine whose callbacks were all delivered. */
    method FinishCallback(id: string, saved: bool)
      requires Valid() && Lookup(workers, id) == Some(Calling)
      modifies this`row, this`workers, subs`entries, Touched(id)
      ensures Valid() && Live() == old(Live()) && subs.rows == old(subs.rows) && subs.records == old(subs.records)
      ensures State() == OnFinished(old(State()), id, saved || !pool)
    {
      if id in subs.rows {
        MarkFinished(id, saved);
      }
      workers := workers - {id};
    }

    /** A status lookup reads one entry under the lock. */
    method HandleStatus(id: string) returns (response: StatusResponse)
      requires Valid()
      ensures response == StatusOf(Lookup(View().subs, id), id)
    {
      if id !in subs.rows {
        return NotFound;
      }
      return Found(id, subs.rows[id].status, subs.rows[id].outcome);
    }
  }
}
