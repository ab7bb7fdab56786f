/** The provider's ledger as a value: what one request, one completion and one callback do
    to it, and what therefore holds over every run, failed write and restart. */
module ProviderLedger {
  import opened Domain
  import opened Totals

  datatype Entry = Entry(
    id: string, filingId: string, scenario: Scenario, callbackUrl: string,
    status: Progress, outcome: Outcome, attempts: nat, callbackFinished: bool)

  datatype Metrics = Metrics(
    submissionAttempts: nat, submissions: nat, duplicates: nat,
    callbacksSent: nat, throttled: nat, transient: nat)

  datatype Ledger = Ledger(
    subs: map<string, Entry>, rateLimits: map<string, nat>, serverErrors: map<string, nat>,
    timeouts: map<string, nat>, metrics: Metrics)

  const EMPTY_LEDGER := Ledger(map[], map[], map[], map[], Metrics(0, 0, 0, 0, 0, 0))

  datatype SubmitRequest = SubmitRequest(id: string, filingId: string, scenario: Scenario, callbackUrl: string)

  datatype Response =
    | AcceptedAnswer(id: string)
    | RejectedAnswer(id: string, detail: string)
    | BadRequest
    | IdentityConflict
    | RateLimited
    | NoEffectOutage
    | GatewayTimeout
    | LedgerUnavailable

  // ---------- One POST ----------

  /** Everything the ledger knows about one operation ID. */
  datatype Cell = Cell(entry: Option<Entry>, rateLimit: nat, serverError: nat, timeout: nat)

  datatype Posted = Posted(cell: Cell, response: Response, charge: Metrics)

  function StatusFromOutcome(e: Entry, detail: string): Response {
    if e.status == Completed && e.outcome == OutcomeRejected then RejectedAnswer(e.id, detail)
    else AcceptedAnswer(e.id)
  }

  function NewEntry(req: SubmitRequest): Entry {
    Entry(req.id, req.filingId, req.scenario, req.callbackUrl, Processing, NoOutcome, 1, false)
  }

  const PERMANENT_FAILURE := "permanent validation failure"

  function Record(c: Cell, req: SubmitRequest): Posted {
    var e := if req.scenario == ScenarioReject
             then NewEntry(req).(status := Completed, outcome := OutcomeRejected, callbackFinished := true)
             else NewEntry(req);
    Posted(c.(entry := Some(e)), StatusFromOutcome(e, PERMANENT_FAILURE), Metrics(1, 1, 0, 0, 0, 0))
  }

  datatype Refused = Refused(cell: Cell, response: Option<Response>, charge: Metrics)

  const NO_CHARGE := Metrics(0, 0, 0, 0, 0, 0)

  /** The fault scenarios: what they count, and the answer they give instead of recording. */
  function Refusal(c: Cell, req: SubmitRequest): Refused {
    match req.scenario
    case ScenarioRateLimitExhausted => Refused(c, Some(RateLimited), NO_CHARGE.(throttled := 1))
    case ScenarioRateLimit =>
      var c' := c.(rateLimit := c.rateLimit + 1);
      if c'.rateLimit <= 2 then Refused(c', Some(RateLimited), NO_CHARGE.(throttled := 1))
          else Refused(c', None, NO_CHARGE)
    case ScenarioTransientServerError =>
      var c' := c.(serverError := c.serverError + 1);
      if c'.serverError <= 2 then Refused(c', Some(NoEffectOutage), NO_CHARGE.(transient := 1))
          else Refused(c', None, NO_CHARGE)
    case ScenarioTimeoutLost =>
      var c' := c.(timeout := c.timeout + 1);
      if c'.timeout == 1 then Refused(c', Some(GatewayTimeout), NO_CHARGE) else Refused(c', None, NO_CHARGE)
    case _ => Refused(c, None, NO_CHARGE)
  }

  /** One POST against the cell of its operation ID. */
  function Post(c: Cell, req: SubmitRequest): Posted {
    if c.entry.Some? then
      var e := c.entry.value;
      if e.filingId != req.filingId || e.scenario != req.scenario then
        Posted(c, IdentityConflict, Metrics(1, 0, 0, 0, 0, 0))
      else
        Posted(c.(entry := Some(e.(attempts := e.attempts + 1))), StatusFromOutcome(e, ""), Metrics(1, 0, 1, 0, 0, 0))
    else
      var refused := Refusal(c, req);
      if refused.response.Some?
      then Posted(refused.cell, refused.response.value, refused.charge.(submissionAttempts := 1))
      else Record(refused.cell, req)
  }

  function Counter(m: map<string, nat>, id: string): nat {
    if id in m then m[id] else 0
  }

  function CellOf(l: Ledger, id: string): Cell {
    Cell(Lookup(l.subs, id), Counter(l.rateLimits, id), Counter(l.serverErrors, id), Counter(l.timeouts, id))
  }

  function Bump(m: map<string, nat>, id: string, n: nat): map<string, nat> {
    if n == Counter(m, id) then m else m[id := n]
  }

  function Plus(a: Metrics, b: Metrics): Metrics {
    Metrics(a.submissionAttempts + b.submissionAttempts, a.submissions + b.submissions,
            a.duplicates + b.duplicates, a.callbacksSent + b.callbacksSent,
            a.throttled + b.throttled, a.transient + b.transient)
  }

  function Put(l: Ledger, id: string, c: Cell, charge: Metrics): Ledger {
    Ledger(if c.entry.Some? then l.subs[id := c.entry.value] else l.subs,
           Bump(l.rateLimits, id, c.rateLimit), Bump(l.serverErrors, id, c.serverError),
           Bump(l.timeouts, id, c.timeout), Plus(l.metrics, charge))
  }

  function Attempt(l: Ledger, req: SubmitRequest): (Ledger, Response) {
    var p := Post(CellOf(l, req.id), req);
    (Put(l, req.id, p.cell, p.charge), p.response)
  }

  /** The whole handler: nothing is answered before the ledger is saved, and a failed save
      puts the old ledger back. */
  function HandleSubmit(l: Ledger, req: SubmitRequest, saved: bool): (Ledger, Response) {
    if req.id == "" then (l, BadRequest)
    else if saved then Attempt(l, req)
    else (l, LedgerUnavailable)
  }

  datatype StatusResponse = NotFound | Found(id: string, status: Progress, outcome: Outcome)

  function StatusOf(entry: Option<Entry>, id: string): StatusResponse {
    if entry.None? then NotFound else Found(id, entry.value.status, entry.value.outcome)
  }

  // ---------- Locality ----------

  lemma CellAfterPut(l: Ledger, id: string, p: Posted)
    requires CellOf(l, id).entry.Some? ==> p.cell.entry.Some?
    ensures CellOf(Put(l, id, p.cell, p.charge), id) == p.cell
    ensures forall other :: other != id ==> CellOf(Put(l, id, p.cell, p.charge), other) == CellOf(l, other)
    ensures p.cell.entry == CellOf(l, id).entry ==> Put(l, id, p.cell, p.charge).subs == l.subs
  {
    assert id in l.subs ==> l.subs[id := l.subs[id]] == l.subs;
  }

  /** A POST reads and writes only its own operation: its cell goes through Post, and no
      other operation's cell changes. */
  lemma SubmitIsLocal(l: Ledger, req: SubmitRequest, other: string)
    requires req.id != ""
    ensures CellOf(Attempt(l, req).0, req.id) == Post(CellOf(l, req.id), req).cell
    ensures other != req.id ==> CellOf(Attempt(l, req).0, other) == CellOf(l, other)
  {
    var c := CellOf(l, req.id);
    assert c.entry.Some? ==> Post(c, req).cell.entry.Some?;
    CellAfterPut(l, req.id, Post(c, req));
  }

  // ---------- The client's reading of an answer ----------

  datatype Verdict = VerdictAccepted | VerdictRejected | VerdictAmbiguous

  datatype SubmitOutcome = SubmitOutcome(verdict: Verdict, detail: string)

  datatype ClientResult = Answered(outcome: SubmitOutcome) | Retryable(message: string)

  const EXHAUSTED_429 := "authority rate limited (429)"
  const NO_EFFECT_5XX := "authority no-effect 5xx: 503"

  /** None stands for a transport failure: the request may or may not have been handled. */
  function Classify(response: Option<Response>): ClientResult {
    match response
    case None => Answered(SubmitOutcome(VerdictAmbiguous, "transport failure"))
    case Some(RateLimited) => Retryable(EXHAUSTED_429)
    case Some(GatewayTimeout) => Answered(SubmitOutcome(VerdictAmbiguous, "gateway timeout"))
    case Some(NoEffectOutage) => Retryable(NO_EFFECT_5XX)
    case Some(LedgerUnavailable) => Answered(SubmitOutcome(VerdictAmbiguous, "authority ambiguous 5xx: 500"))
    case Some(BadRequest) => Answered(SubmitOutcome(VerdictAmbiguous, "unreadable response"))
    case Some(IdentityConflict) => Answered(SubmitOutcome(VerdictAmbiguous, "unreadable response"))
    case Some(AcceptedAnswer(_)) => Answered(SubmitOutcome(VerdictAccepted, ""))
    case Some(RejectedAnswer(_, detail)) => Answered(SubmitOutcome(VerdictRejected, detail))
  }

  /** Which answers the client takes for what, and the words it passes on. */
  lemma ReadExactly(response: Option<Response>)
    ensures var read := Classify(response);
      && (read == Retryable("authority rate limited (429)") <==> response == Some(RateLimited))
      && (read == Retryable("authority no-effect 5xx: 503") <==> response == Some(NoEffectOutage))
      && (read.Retryable? ==> response == Some(RateLimited) || response == Some(NoEffectOutage))
      && (read == Answered(SubmitOutcome(VerdictAccepted, "")) <==>
            response.Some? && response.value.AcceptedAnswer?)
      && (forall detail :: read == Answered(SubmitOutcome(VerdictRejected, detail)) <==>
            response.Some? && response.value.RejectedAnswer? && response.value.detail == detail)
      && (response.None? ==> read == Answered(SubmitOutcome(VerdictAmbiguous, "transport failure")))
      && (response == Some(GatewayTimeout) ==> read == Answered(SubmitOutcome(VerdictAmbiguous, "gateway timeout")))
      && (response == Some(LedgerUnavailable) ==>
            read == Answered(SubmitOutcome(VerdictAmbiguous, "authority ambiguous 5xx: 500")))
      && (response == Some(BadRequest) || response == Some(IdentityConflict) ==>
            read == Answered(SubmitOutcome(VerdictAmbiguous, "unreadable response")))
  {
    assert "authority rate limited (429)"[10] == 'r' && "authority no-effect 5xx: 503"[10] == 'n';
  }

  predicate Conclusive(e: Entry, response: Response) {
    && (response.AcceptedAnswer? || response.RejectedAnswer?)
    && (response.RejectedAnswer? <==> e.status == Completed && e.outcome == OutcomeRejected)
  }

  /** The answer to a POST against the cell it leaves behind: a retryable answer means that
      the operation is absent, a conclusive one that it is recorded as asked. */
  predicate Truthful(c: Cell, req: SubmitRequest, response: Response) {
    match Classify(Some(response))
    case Retryable(_) => c.entry.None?
    case Answered(o) =>
      o.verdict != VerdictAmbiguous ==>
        && c.entry.Some?
        && c.entry.value.filingId == req.filingId && c.entry.value.scenario == req.scenario
        && (o.verdict == VerdictRejected <==> response.RejectedAnswer?)
        && Conclusive(c.entry.value, response)
  }

  lemma PostIsTruthful(c: Cell, req: SubmitRequest)
    ensures var p := Post(c, req);
      && Truthful(p.cell, req, p.response)
      && (Classify(Some(p.response)).Retryable? ==> c.entry.None?)
  {
    if c.entry.None? && req.scenario == ScenarioReject {
      assert Post(c, req) == Record(c, req);
    }
  }

  /** The retry taxonomy, end to end: a retryable failure proves that the operation is not
      in the ledger, a conclusive answer names an entry that is, and every other answer,
      an identity conflict and a failed save included, is read as ambiguous. */
  lemma RetryTaxonomy(l: Ledger, req: SubmitRequest, saved: bool)
    ensures var (l', response) := HandleSubmit(l, req, saved); var result := Classify(Some(response));
      && (result.Retryable? ==> req.id !in l'.subs && l'.subs == l.subs)
      && (result.Answered? && result.outcome.verdict == VerdictAmbiguous <==>
            response == BadRequest || response == IdentityConflict || response == GatewayTimeout
                || response == LedgerUnavailable)
      && (result.Answered? && result.outcome.verdict != VerdictAmbiguous ==>
            && saved && req.id in l'.subs
            && l'.subs[req.id].filingId == req.filingId && l'.subs[req.id].scenario == req.scenario
            && Conclusive(l'.subs[req.id], response))
  {
    if req.id != "" && saved {
      PostIsTruthful(CellOf(l, req.id), req);
      CellAfterPut(l, req.id, Post(CellOf(l, req.id), req));
    }
  }

  /** POSTs of one step: the client repeats only after a retryable failure. */
  function PostAll(l: Ledger, req: SubmitRequest, saves: seq<bool>): Ledger
    decreases |saves|
  {
    if saves == [] then l else PostAll(HandleSubmit(l, req, saves[0]).0, req, saves[1..])
  }

  ghost predicate AllRetryable(l: Ledger, req: SubmitRequest, saves: seq<bool>)
    decreases |saves|
  {
    saves != [] ==>
      var (l', response) := HandleSubmit(l, req, saves[0]);
      Classify(Some(response)).Retryable? && AllRetryable(l', req, saves[1..])
  }

  /** Within one step every POST but the last had no effect: however many were retried, the
      entries are those from before the step when the last POST arrives. */
  lemma {:induction false} RetriedPostsHadNoEffect(l: Ledger, req: SubmitRequest, saves: seq<bool>)
    requires AllRetryable(l, req, saves)
    ensures PostAll(l, req, saves).subs == l.subs
    ensures saves != [] ==> req.id !in l.subs
    decreases |saves|
  {
    if saves != [] {
      RetryTaxonomy(l, req, saves[0]);
      RetriedPostsHadNoEffect(HandleSubmit(l, req, saves[0]).0, req, saves[1..]);
    }
  }

  /** When each answer to a POST is given: by the entry if there is one, and otherwise by the
      scenario and by how often this operation was asked for before. */
  lemma PostAnsweredExactly(c: Cell, req: SubmitRequest)
    ensures var response := Post(c, req).response; var e := c.entry;
      var same := e.Some? && e.value.filingId == req.filingId && e.value.scenario == req.scenario;
      && (response == IdentityConflict <==> e.Some? && !same)
      && (response == RateLimited <==>
            e.None? && (req.scenario == ScenarioRateLimitExhausted
                        || (req.scenario == ScenarioRateLimit && c.rateLimit < 2)))
      && (response == NoEffectOutage <==>
            e.None? && req.scenario == ScenarioTransientServerError && c.serverError < 2)
      && (response == GatewayTimeout <==> e.None? && req.scenario == ScenarioTimeoutLost && c.timeout == 0)
      && (response == RejectedAnswer(req.id, "permanent validation failure") <==>
            e.None? && req.scenario == ScenarioReject)
      && (e.Some? && response.RejectedAnswer? <==>
            same && e.value.status == Completed && e.value.outcome == OutcomeRejected)
      && (e.Some? && response.RejectedAnswer? ==> response == RejectedAnswer(e.value.id, ""))
      && !response.BadRequest? && !response.LedgerUnavailable?
  {
  }

  /** And what it leaves: a repeated operation one more attempt, a new one its whole entry, a
      refused one nothing but the count of its kind of fault. */
  lemma PostLeavesExactly(c: Cell, req: SubmitRequest)
    ensures var p := Post(c, req);
      && (c.entry.Some? ==> p.cell == c.(entry := Some(c.entry.value.(attempts :=
            c.entry.value.attempts + if p.response == IdentityConflict then 0 else 1))))
      && (c.entry.None? ==>
            && (p.cell.entry.Some? <==> p.response.AcceptedAnswer? || p.response.RejectedAnswer?)
            && p.cell.rateLimit == c.rateLimit + (if req.scenario == ScenarioRateLimit then 1 else 0)
            && p.cell.serverError == c.serverError + (if req.scenario == ScenarioTransientServerError then 1 else 0)
            && p.cell.timeout == c.timeout + (if req.scenario == ScenarioTimeoutLost then 1 else 0))
      && (c.entry.None? && p.cell.entry.Some? && req.scenario == ScenarioReject ==>
            p.cell.entry.value ==
              Entry(req.id, req.filingId, req.scenario, req.callbackUrl, Completed, OutcomeRejected, 1, true))
      && (c.entry.None? && p.cell.entry.Some? && req.scenario != ScenarioReject ==>
            p.cell.entry.value ==
              Entry(req.id, req.filingId, req.scenario, req.callbackUrl, Processing, NoOutcome, 1, false))
  {
  }

  /** The handler refuses a request without an ID, and one it cannot save; neither leaves a trace.
      Any other is answered by the cell of its operation. */
  lemma HandlerAnswersExactly(l: Ledger, req: SubmitRequest, saved: bool)
    ensures var (l', response) := HandleSubmit(l, req, saved);
      && (response == BadRequest <==> req.id == "")
      && (response == LedgerUnavailable <==> req.id != "" && !saved)
      && (req.id == "" || !saved ==> l' == l)
      && (req.id != "" && saved ==>
            && response == Post(CellOf(l, req.id), req).response
            && CellOf(l', req.id) == Post(CellOf(l, req.id), req).cell)
  {
    if req.id != "" && saved {
      SubmitIsLocal(l, req, req.id);
      PostAnsweredExactly(CellOf(l, req.id), req);
    }
  }

  /** What a lookup reports. */
  lemma LookupReportsEntry(l: Ledger, id: string)
    ensures var status := StatusOf(Lookup(l.subs, id), id);
      && (status.NotFound? <==> id !in l.subs)
      && (status.Found? ==> status.id == id
                            && status.status == l.subs[id].status && status.outcome == l.subs[id].outcome)
  {
  }

  // ---------- What every ledger keeps ----------

  predicate EntryOk(id: string, e: Entry) {
    && e.id == id
    && e.attempts >= 1
    && (e.status == Processing <==> e.outcome == NoOutcome)
    && (e.outcome == OutcomeRejected <==> e.scenario == ScenarioReject)
    && (e.outcome == OutcomeRejected ==> e.callbackFinished)
    && (e.callbackFinished ==> e.status == Completed)
  }

  predicate Valid(l: Ledger) {
    && (forall id :: id in l.subs ==> EntryOk(id, l.subs[id]))
    && (forall id :: id in l.timeouts ==> l.timeouts[id] >= 1)
  }

  /** One entry may only gain attempts, complete once, and finish its callback. */
  predicate EntryGrows(e: Entry, e': Entry) {
    && e'.id == e.id && e'.filingId == e.filingId && e'.scenario == e.scenario && e'.callbackUrl == e.callbackUrl
    && e.attempts <= e'.attempts
    && (e.status == Completed ==> e'.status == Completed && e'.outcome == e.outcome)
    && (e.callbackFinished ==> e'.callbackFinished)
  }

  predicate Grows(l: Ledger, l': Ledger) {
    forall id :: id in l.subs ==> id in l'.subs && EntryGrows(l.subs[id], l'.subs[id])
  }

  /** What any answer may do to the cell of operation `id`, and what it is charged for. */
  predicate Fair(c: Cell, id: string, p: Posted) {
    && (p.cell.entry.Some? ==> EntryOk(id, p.cell.entry.value))
    && (c.entry.Some? ==>
          && p.cell.entry.Some? && EntryGrows(c.entry.value, p.cell.entry.value)
          && p.cell.entry.value.attempts == c.entry.value.attempts + p.charge.duplicates
          && p.charge.submissions == 0)
    && (c.entry.None? ==> p.charge.duplicates == 0)
    && (c.entry.None? && p.cell.entry.Some? ==> p.charge.submissions == 1 && p.cell.entry.value.attempts == 1)
    && (p.cell.entry.None? ==> p.charge.submissions == 0)
    && (p.cell.rateLimit == c.rateLimit || p.cell.rateLimit == c.rateLimit + 1)
    && (p.cell.serverError == c.serverError || p.cell.serverError == c.serverError + 1)
    && (p.cell.timeout == c.timeout || p.cell.timeout == c.timeout + 1)
  }

  function AtMostTwo(n: nat): nat {
    if n < 2 then n else 2
  }

  /** A rate limit that no number of retries can pass. */
  predicate Exhausted(req: SubmitRequest, response: Response) {
    response == RateLimited && req.scenario == ScenarioRateLimitExhausted
  }

  /** The charge of one answer, against what it changed. */
  predicate Charged(c: Cell, req: SubmitRequest, p: Posted) {
    && p.charge.transient == AtMostTwo(p.cell.serverError) - AtMostTwo(c.serverError)
    && p.charge.throttled ==
         AtMostTwo(p.cell.rateLimit) - AtMostTwo(c.rateLimit) + (if Exhausted(req, p.response) then 1 else 0)
    && p.charge.submissionAttempts ==
         p.charge.submissions + p.charge.duplicates + p.charge.throttled + p.charge.transient
         + (if c.timeout == 0 && p.cell.timeout > 0 then 1 else 0)
         + (if p.response == IdentityConflict then 1 else 0)
    && p.charge.submissionAttempts == 1 && p.charge.callbacksSent == 0
  }

  lemma PostIsFair(c: Cell, req: SubmitRequest)
    requires c.entry.Some? ==> EntryOk(req.id, c.entry.value)
    ensures Fair(c, req.id, Post(c, req)) && Charged(c, req, Post(c, req))
  {
    if c.entry.None? && req.scenario == ScenarioReject {
      assert Post(c, req) == Record(c, req);
    }
  }

  lemma PutKeepsValid(l: Ledger, id: string, p: Posted)
    requires Valid(l) && Fair(CellOf(l, id), id, p)
    ensures var l' := Put(l, id, p.cell, p.charge); Valid(l') && Grows(l, l')
  {
  }

  lemma SubmitKeepsValid(l: Ledger, req: SubmitRequest, saved: bool)
    requires Valid(l)
    ensures var l' := HandleSubmit(l, req, saved).0; Valid(l') && Grows(l, l')
  {
    var c := CellOf(l, req.id);
    PostIsFair(c, req);
    PutKeepsValid(l, req.id, Post(c, req));
  }

  // ---------- A repeated rejection ----------

  /** Repeating a POST that was rejected is rejected again, for the same operation; the answer is
      the identical one exactly when the operation was in the ledger before the first POST. */
  lemma RepeatedRejectionExactly(l: Ledger, req: SubmitRequest)
    requires Valid(l) && req.id != ""
    ensures var (l1, first) := Attempt(l, req); var (l2, second) := Attempt(l1, req);
      first.RejectedAnswer? ==>
        && second.RejectedAnswer? && second.id == first.id
        && (second == first <==> req.id in l.subs)
  {
    var (l1, first) := Attempt(l, req);
    SubmitIsLocal(l, req, req.id);
    if first.RejectedAnswer? {
      assert CellOf(l1, req.id).entry.Some?;
    }
  }

  /** So the detail is lost on the way: a new operation that is rejected, asked for again. */
  lemma RepeatedRejectionLosesDetail(l: Ledger, req: SubmitRequest)
    requires req.id != "" && req.id !in l.subs && req.scenario == ScenarioReject
    ensures var (l1, first) := Attempt(l, req); var (l2, second) := Attempt(l1, req);
      && first.RejectedAnswer? && first.detail == PERMANENT_FAILURE
      && second.RejectedAnswer? && second.detail == ""
  {
    var c := CellOf(l, req.id);
    assert Refusal(c, req).response.None?;
    assert Post(c, req) == Record(c, req);
    SubmitIsLocal(l, req, req.id);
  }

  // ---------- Conservation ----------

  function Extra(e: Entry): nat {
    if e.attempts == 0 then 0 else e.attempts - 1
  }

  /** How often each operation was asked for again after it was recorded. */
  ghost function ExtraAttempts(subs: map<string, Entry>): map<string, nat> {
    map id | id in subs :: Extra(subs[id])
  }

  ghost function Capped(m: map<string, nat>): map<string, nat> {
    map id | id in m :: AtMostTwo(m[id])
  }

  /** The ledger's books. Two kinds of answer have no counter of their own in the source,
      so their numbers are parameters: identity conflicts and hopeless rate limits. */
  ghost predicate Conserved(l: Ledger, conflicts: nat, exhausted: nat) {
    var m := l.metrics;
    && m.submissions == |l.subs|
    && m.duplicates == Total(ExtraAttempts(l.subs))
    && m.transient == Total(Capped(l.serverErrors))
    && m.throttled == Total(Capped(l.rateLimits)) + exhausted
    && m.submissionAttempts == m.submissions + m.duplicates + m.throttled + m.transient + |l.timeouts| + conflicts
  }

  lemma BumpTotal(m: map<string, nat>, id: string, n: nat)
    requires n == Counter(m, id) || n == Counter(m, id) + 1
    ensures Total(Capped(Bump(m, id, n))) == Total(Capped(m)) + AtMostTwo(n) - AtMostTwo(Counter(m, id))
  {
    if n != Counter(m, id) {
      assert Capped(m[id := n]) == Capped(m)[id := AtMostTwo(n)];
      TotalUpdate(Capped(m), id, AtMostTwo(n));
    }
  }

  lemma EntryAddsUp(subs: map<string, Entry>, id: string, e: Entry)
    ensures Total(ExtraAttempts(subs[id := e])) ==
        Total(ExtraAttempts(subs)) + Extra(e) - (if id in subs then Extra(subs[id]) else 0)
    ensures |subs[id := e]| == |subs| + (if id in subs then 0 else 1)
  {
    assert ExtraAttempts(subs[id := e]) == ExtraAttempts(subs)[id := Extra(e)];
    TotalUpdate(ExtraAttempts(subs), id, Extra(e));
  }

  lemma PutAddsUp(l: Ledger, id: string, p: Posted)
    requires id in l.subs ==> EntryOk(id, l.subs[id])
    requires Fair(CellOf(l, id), id, p)
    ensures var subs := Put(l, id, p.cell, p.charge).subs;
      && |subs| == |l.subs| + p.charge.submissions
      && Total(ExtraAttempts(subs)) == Total(ExtraAttempts(l.subs)) + p.charge.duplicates
  {
    if p.cell.entry.Some? {
      EntryAddsUp(l.subs, id, p.cell.entry.value);
    }
  }

  lemma PutConserves(l: Ledger, req: SubmitRequest, p: Posted, conflicts: nat, exhausted: nat)
    requires Valid(l) && Conserved(l, conflicts, exhausted)
    requires var c := CellOf(l, req.id); Fair(c, req.id, p) && Charged(c, req, p)
    ensures var l' := Put(l, req.id, p.cell, p.charge);
      && Valid(l')
      && Conserved(l', conflicts + (if p.response == IdentityConflict then 1 else 0),
                   exhausted + (if Exhausted(req, p.response) then 1 else 0))
  {
    PutKeepsValid(l, req.id, p);
    PutAddsUp(l, req.id, p);
    BumpTotal(l.rateLimits, req.id, p.cell.rateLimit);
    BumpTotal(l.serverErrors, req.id, p.cell.serverError);
    assert req.id in l.timeouts ==> l.timeouts[req.id] >= 1;
  }

  /** One POST keeps the books balanced, whether or not its save succeeds. */
  lemma SubmitConserves(l: Ledger, req: SubmitRequest, saved: bool, conflicts: nat, exhausted: nat)
    requires Valid(l) && Conserved(l, conflicts, exhausted)
    ensures var (l', response) := HandleSubmit(l, req, saved);
      && Valid(l')
      && Conserved(l', conflicts + (if response == IdentityConflict then 1 else 0),
                   exhausted + (if Exhausted(req, response) then 1 else 0))
  {
    if req.id != "" && saved {
      var c := CellOf(l, req.id);
      PostIsFair(c, req);
      PutConserves(l, req, Post(c, req), conflicts, exhausted);
    }
  }

  // ---------- Completion and callbacks ----------

  function Complete(e: Entry): Entry {
    if e.status == Processing then e.(status := Completed, outcome := OutcomeAccepted) else e
  }

  datatype Stage = Waiting | Calling

  /** The provider process: live ledger, stored ledger, and one goroutine per operation. */
  datatype Provider = Provider(memory: Ledger, durable: Ledger, workers: map<string, Stage>)

  datatype Event =
    | Submit(req: SubmitRequest, saved: bool)
    | Fire(id: string, saved: bool)
    | Delivered(id: string, saved: bool)
    | Finished(id: string, saved: bool)
    | GaveUp(id: string)
    | Restart

  function WithEntry(l: Ledger, id: string, e: Entry): Ledger {
    l.(subs := l.subs[id := e])
  }

  function CountCallback(l: Ledger): Ledger {
    l.(metrics := l.metrics.(callbacksSent := l.metrics.callbacksSent + 1))
  }

  /** Both copies take the new ledger, or neither does. */
  function Save(p: Provider, next: Ledger, saved: bool): Provider {
    if saved then p.(memory := next, durable := next) else p
  }

  function StartWorker(p: Provider, id: string): Provider {
    p.(workers := p.workers[id := Waiting])
  }

  function StopWorker(p: Provider, id: string): Provider {
    p.(workers := p.workers - {id})
  }

  function Resumed(l: Ledger): map<string, Stage> {
    map id | id in l.subs && (l.subs[id].status == Processing || !l.subs[id].callbackFinished) :: Waiting
  }

  function OnSubmit(p: Provider, req: SubmitRequest, saved: bool): Provider {
    var next := HandleSubmit(p.memory, req, saved).0;
    var p' := if req.id == "" then p else Save(p, next, saved);
    if req.id in next.subs && req.id !in p.memory.subs && !next.subs[req.id].callbackFinished
    then StartWorker(p', req.id) else p'
  }

  function OnFire(p: Provider, id: string, saved: bool): Provider {
    if Lookup(p.workers, id) != Some(Waiting) then p
    else if id !in p.memory.subs then StopWorker(p, id)
    else
      var sub := p.memory.subs[id];
      if sub.status == Processing && !saved then StopWorker(p, id)
      else
        var p' := if sub.status == Processing then Save(p, WithEntry(p.memory, id, Complete(sub)), true) else p;
        if sub.callbackFinished then StopWorker(p', id) else p'.(workers := p'.workers[id := Calling])
  }

  function OnDelivered(p: Provider, id: string, saved: bool): Provider {
    if Lookup(p.workers, id) != Some(Calling) then p
    else if id in p.memory.subs && p.memory.subs[id].scenario == ScenarioNoCallbackDone then p
    else Save(p, CountCallback(p.memory), saved)
  }

  function OnFinished(p: Provider, id: string, saved: bool): Provider {
    if Lookup(p.workers, id) != Some(Calling) then p
    else if id !in p.memory.subs then StopWorker(p, id)
    else
      var sub := p.memory.subs[id];
      var stopped := StopWorker(p, id);
      if saved then Save(stopped, WithEntry(p.memory, id, sub.(callbackFinished := true)), true)
      else stopped.(memory := WithEntry(p.memory, id, sub.(callbackFinished := false)))
  }

  function React(p: Provider, e: Event): Provider {
    match e
    case Submit(req, saved) => OnSubmit(p, req, saved)
    case Fire(id, saved) => OnFire(p, id, saved)
    case Delivered(id, saved) => OnDelivered(p, id, saved)
    case Finished(id, saved) => OnFinished(p, id, saved)
    case GaveUp(id) => StopWorker(p, id)
    case Restart => Provider(p.durable, p.durable, Resumed(p.durable))
  }

  datatype Uncounted = Uncounted(conflicts: nat, exhausted: nat)

  function Tally(p: Provider, e: Event, t: Uncounted): Uncounted {
    if e.Submit? then
      var response := HandleSubmit(p.memory, e.req, e.saved).1;
      Uncounted(t.conflicts + (if response == IdentityConflict then 1 else 0),
             t.exhausted + (if Exhausted(e.req, response) then 1 else 0))
    else t
  }

  /** A goroutine exists only for an operation whose callback is still owed, and it calls
      only once the operation is completed and accepted. */
  predicate WorkerOk(l: Ledger, id: string, s: Stage) {
    && id in l.subs
    && !l.subs[id].callbackFinished
    && (s == Calling ==> l.subs[id].status == Completed && l.subs[id].outcome == OutcomeAccepted)
  }

  predicate Synced(p: Provider) {
    && p.memory == p.durable
    && Valid(p.memory)
    && forall id :: id in p.workers ==> WorkerOk(p.durable, id, p.workers[id])
  }

  /** Replacing an entry by a grown one is all that a goroutine ever does to the ledger. */
  lemma EntryUpdate(l: Ledger, id: string, e: Entry, t: Uncounted)
    requires Valid(l) && id in l.subs && EntryOk(id, e) && EntryGrows(l.subs[id], e)
    requires e.attempts == l.subs[id].attempts
    ensures var l' := WithEntry(l, id, e);
      && Valid(l') && Grows(l, l')
      && (Conserved(l, t.conflicts, t.exhausted) ==> Conserved(l', t.conflicts, t.exhausted))
  {
    EntryAddsUp(l.subs, id, e);
  }

  /** A POST never finishes the callback of an operation that was already recorded. */
  lemma UnfinishedStays(l: Ledger, req: SubmitRequest, saved: bool, id: string)
    requires id in l.subs
    ensures var l' := HandleSubmit(l, req, saved).0;
      id in l'.subs && l'.subs[id].(attempts := 0) == l.subs[id].(attempts := 0)
  {
  }

  /** Goroutines keep what they rest on, and a new one has a new operation to complete. */
  lemma SubmitKeepsWorkers(p: Provider, req: SubmitRequest, saved: bool, id: string)
    requires Synced(p) && id in OnSubmit(p, req, saved).workers
    ensures WorkerOk(HandleSubmit(p.memory, req, saved).0, id, OnSubmit(p, req, saved).workers[id])
  {
    var p' := OnSubmit(p, req, saved);
    if id in p.workers && p'.workers[id] == p.workers[id] {
      assert WorkerOk(p.durable, id, p.workers[id]);
      UnfinishedStays(p.memory, req, saved, id);
    }
  }

  lemma SubmitKeeps(p: Provider, req: SubmitRequest, saved: bool, t: Uncounted)
    requires Synced(p)
    ensures var p' := OnSubmit(p, req, saved); var t' := Tally(p, Submit(req, saved), t);
      && Synced(p') && Grows(p.durable, p'.durable)
      && (Conserved(p.durable, t.conflicts, t.exhausted) ==> Conserved(p'.durable, t'.conflicts, t'.exhausted))
  {
    SubmitKeepsValid(p.memory, req, saved);
    if Conserved(p.durable, t.conflicts, t.exhausted) {
      SubmitConserves(p.memory, req, saved, t.conflicts, t.exhausted);
    }
    var p' := OnSubmit(p, req, saved);
    assert p'.memory == p'.durable == HandleSubmit(p.memory, req, saved).0;
    forall id | id in p'.workers
      ensures WorkerOk(p'.durable, id, p'.workers[id])
    {
      SubmitKeepsWorkers(p, req, saved, id);
    }
  }

  /** A goroutine that completes or finishes its own operation, and perhaps goes on or stops. */
  lemma WorkerKeeps(p: Provider, id: string, e: Entry, p': Provider, t: Uncounted)
    requires Synced(p) && id in p.memory.subs && EntryOk(id, e) && EntryGrows(p.memory.subs[id], e)
    requires e.attempts == p.memory.subs[id].attempts
    requires p'.memory == p'.durable == WithEntry(p.memory, id, e)
    requires p'.workers.Keys <= p.workers.Keys
    requires forall other :: other in p'.workers && other != id ==> p'.workers[other] == p.workers[other]
    requires id in p'.workers ==> WorkerOk(p'.durable, id, p'.workers[id])
    ensures Synced(p') && Grows(p.durable, p'.durable)
    ensures Conserved(p.durable, t.conflicts, t.exhausted) ==> Conserved(p'.durable, t.conflicts, t.exhausted)
  {
    EntryUpdate(p.memory, id, e, t);
    forall other | other in p'.workers && other != id
      ensures WorkerOk(p'.durable, other, p'.workers[other])
    {
      assert other in p.workers && WorkerOk(p.durable, other, p.workers[other]);
    }
  }

  lemma StopKeeps(p: Provider, id: string)
    requires Synced(p)
    ensures Synced(StopWorker(p, id))
  {
  }

  lemma FireKeeps(p: Provider, id: string, saved: bool, t: Uncounted)
    requires Synced(p)
    ensures var p' := OnFire(p, id, saved);
      && Synced(p') && Grows(p.durable, p'.durable)
      && (Conserved(p.durable, t.conflicts, t.exhausted) ==> Conserved(p'.durable, t.conflicts, t.exhausted))
  {
    if Lookup(p.workers, id) == Some(Waiting) {
      assert WorkerOk(p.durable, id, p.workers[id]);
      var sub := p.memory.subs[id];
      assert EntryOk(id, sub);
      if sub.status == Processing && !saved {
        StopKeeps(p, id);
      } else {
        assert p.memory.subs[id := sub] == p.memory.subs;
        WorkerKeeps(p, id, Complete(sub), OnFire(p, id, saved), t);
      }
    }
  }

  lemma FinishedKeeps(p: Provider, id: string, saved: bool, t: Uncounted)
    requires Synced(p)
    ensures var p' := OnFinished(p, id, saved);
      && Synced(p') && Grows(p.durable, p'.durable)
      && (Conserved(p.durable, t.conflicts, t.exhausted) ==> Conserved(p'.durable, t.conflicts, t.exhausted))
  {
    if Lookup(p.workers, id) == Some(Calling) {
      assert WorkerOk(p.durable, id, p.workers[id]);
      var sub := p.memory.subs[id];
      assert EntryOk(id, sub);
      assert p.memory.subs[id := sub] == p.memory.subs;
      WorkerKeeps(p, id, sub.(callbackFinished := saved), OnFinished(p, id, saved), t);
    }
  }

  lemma RestartKeeps(p: Provider)
    requires Synced(p)
    ensures Synced(React(p, Restart)) && Grows(p.durable, React(p, Restart).durable)
  {
    forall id | id in Resumed(p.durable)
      ensures WorkerOk(p.durable, id, Waiting)
    {
      assert EntryOk(id, p.durable.subs[id]);
    }
  }

  lemma ReactKeeps(p: Provider, e: Event, t: Uncounted)
    requires Synced(p)
    ensures var p' := React(p, e); var t' := Tally(p, e, t);
      && Synced(p') && Grows(p.durable, p'.durable)
      && (Conserved(p.durable, t.conflicts, t.exhausted) ==> Conserved(p'.durable, t'.conflicts, t'.exhausted))
  {
    match e
    case Submit(req, saved) => SubmitKeeps(p, req, saved, t);
    case Fire(id, saved) => FireKeeps(p, id, saved, t);
    case Delivered(_, _) =>
    case Finished(id, saved) => FinishedKeeps(p, id, saved, t);
    case GaveUp(_) =>
    case Restart => RestartKeeps(p);
  }

  /** A restart loses no callback and invents none: an operation has a goroutine afterwards exactly
      when its stored entry has not finished its callback. */
  lemma RestartResumesExactly(p: Provider, id: string)
    requires Valid(p.durable)
    ensures var p' := React(p, Restart);
      && p'.memory == p'.durable == p.durable
      && (id in p'.workers <==> id in p.durable.subs && !p.durable.subs[id].callbackFinished)
      && (id in p'.workers ==> p'.workers[id] == Waiting)
  {
    if id in p.durable.subs {
      assert EntryOk(id, p.durable.subs[id]);
    }
  }

  /** A goroutine that stops trying leaves everything but itself as it was: its callback is still
      owed, and the next restart takes it up again. */
  lemma GivingUpOwesCallback(p: Provider, id: string)
    requires Synced(p) && id in p.workers
    ensures var p' := React(p, GaveUp(id)); var again := React(p', Restart);
      && p'.memory == p.memory && p'.durable == p.durable && p'.workers == p.workers - {id}
      && Lookup(again.workers, id) == Some(Waiting)
  {
    assert WorkerOk(p.durable, id, p.workers[id]);
    RestartResumesExactly(React(p, GaveUp(id)), id);
  }

  /** A goroutine whose delay is over completes its operation and goes on to call back; it ends
      when the completion cannot be saved. No other operation is touched. */
  lemma FiringCompletes(p: Provider, id: string, saved: bool)
    requires Synced(p) && Lookup(p.workers, id) == Some(Waiting)
    ensures var p' := React(p, Fire(id, saved));
      && id in p.durable.subs && p'.memory == p'.durable
      && var e := p.durable.subs[id];
        if e.status == Processing && !saved then
          p'.durable == p.durable && p'.workers == p.workers - {id}
        else
          && p'.workers == p.workers[id := Calling]
          && p'.durable == p.durable.(subs := p'.durable.subs)
          && p'.durable.subs == p.durable.subs[id := e.(status := Completed, outcome := OutcomeAccepted)]
  {
    assert WorkerOk(p.durable, id, Waiting);
    assert EntryOk(id, p.durable.subs[id]);
    assert p.durable.subs[id := p.durable.subs[id]] == p.durable.subs;
  }

  /** A delivered callback is counted once, if the count can be saved; nothing else changes. */
  lemma DeliveryIsCounted(p: Provider, id: string, saved: bool)
    requires Synced(p) && Lookup(p.workers, id) == Some(Calling)
    ensures var p' := React(p, Delivered(id, saved)); var m := p.durable.metrics;
      && p'.workers == p.workers && p'.memory == p'.durable
      && p'.durable == p.durable.(metrics := m.(callbacksSent := m.callbacksSent +
           if saved && p.durable.subs[id].scenario != ScenarioNoCallbackDone then 1 else 0))
  {
    assert WorkerOk(p.durable, id, Calling);
  }

  /** The goroutine ends; its callback counts as finished if that can be saved. */
  lemma FinishingEnds(p: Provider, id: string, saved: bool)
    requires Synced(p) && Lookup(p.workers, id) == Some(Calling)
    ensures var p' := React(p, Finished(id, saved));
      && p'.workers == p.workers - {id} && p'.memory == p'.durable
      && id in p.durable.subs
      && p'.durable == p.durable.(subs := p.durable.subs[id := p.durable.subs[id].(callbackFinished := saved)])
  {
    assert WorkerOk(p.durable, id, Calling);
    assert p.durable.subs[id := p.durable.subs[id]] == p.durable.subs;
  }

  /** Every accepted or rejected answer names a stored entry of the same filing and scenario. */
  lemma AnswersAreDurable(p: Provider, req: SubmitRequest, saved: bool)
    requires Synced(p)
    ensures var stored := React(p, Submit(req, saved)).durable.subs;
      var response := HandleSubmit(p.memory, req, saved).1;
      response.AcceptedAnswer? || response.RejectedAnswer? ==>
        && response.id == req.id && req.id in stored
        && stored[req.id].filingId == req.filingId && stored[req.id].scenario == req.scenario
        && Conclusive(stored[req.id], response)
  {
    RetryTaxonomy(p.memory, req, saved);
    ReactKeeps(p, Submit(req, saved), Uncounted(0, 0));
  }

  // ---------- Whole runs ----------

  datatype History = History(provider: Provider, uncounted: Uncounted)

  function RunProvider(p: Provider, t: Uncounted, events: seq<Event>): History
    decreases |events|
  {
    if events == [] then History(p, t)
    else RunProvider(React(p, events[0]), Tally(p, events[0], t), events[1..])
  }

  lemma GrowsTransitive(a: Ledger, b: Ledger, c: Ledger)
    requires Grows(a, b) && Grows(b, c)
    ensures Grows(a, c)
  {
    forall id | id in a.subs
      ensures id in c.subs && EntryGrows(a.subs[id], c.subs[id])
    {
      assert id in b.subs && EntryGrows(a.subs[id], b.subs[id]);
      assert EntryGrows(b.subs[id], c.subs[id]);
    }
  }

  /** Over every run of requests, completions, callbacks, failed writes and restarts: the
      live ledger is the stored one, its books balance, its entries only grow, and every
      goroutine that is calling back has a durably completed, accepted operation. */
  lemma {:induction false} ProviderRunsAreDurable(p: Provider, t: Uncounted, events: seq<Event>)
    requires Synced(p) && Conserved(p.durable, t.conflicts, t.exhausted)
    ensures var h := RunProvider(p, t, events);
      && Synced(h.provider)
      && Conserved(h.provider.durable, h.uncounted.conflicts, h.uncounted.exhausted)
      && Grows(p.durable, h.provider.durable)
    decreases |events|
  {
    if events != [] {
      var p' := React(p, events[0]);
      ReactKeeps(p, events[0], t);
      ProviderRunsAreDurable(p', Tally(p, events[0], t), events[1..]);
      GrowsTransitive(p.durable, p'.durable, RunProvider(p, t, events).provider.durable);
    }
  }

  /** A new provider starts with balanced books. */
  lemma EmptyLedgerIsSound()
    ensures Synced(Provider(EMPTY_LEDGER, EMPTY_LEDGER, map[]))
    ensures Conserved(EMPTY_LEDGER, 0, 0)
  {
    assert ExtraAttempts(EMPTY_LEDGER.subs) == map[];
    assert Capped(map[]) == map[];
  }
}
