/** What becomes of an ID on its way through a URL. The clients put filing and operation IDs
    into the path of a lookup as they are; the servers decode the path. For most IDs that makes
    no difference; where it does, a workflow reads and records what belongs to another filing. */
module Lookups {
  import opened Domain
  import opened CommandStore
  import opened ProviderLedger
  import opened Filing
  import opened Protocol
  import opened ProtocolInvariant
  import opened Guarantees
  import opened Runs

  function HexValue(c: char): Option<nat> {
    if '0' <= c <= '9' then Some(c as int - '0' as int)
    else if 'a' <= c <= 'f' then Some(c as int - 'a' as int + 10)
    else if 'A' <= c <= 'F' then Some(c as int - 'A' as int + 10)
    else None
  }

  /** The character that an escape at the head of a text stands for, within ASCII. */
  function EscapedHead(s: string): Option<char> {
    if |s| < 3 || HexValue(s[1]).None? || HexValue(s[2]).None? then None
    else
      var code := HexValue(s[1]).value * 16 + HexValue(s[2]).value;
      if code < 128 then Some(code as char) else None
  }

  /** Decoding one segment of a path, section 2.1 of RFC 3986; a malformed escape has no reading. */
  function Unescape(s: string): Option<string>
    decreases |s|
  {
    if s == "" then Some("")
    else
      var head := if s[0] == '%' then EscapedHead(s) else Some(s[0]);
      if head.None? then None
      else
        var rest := Unescape(if s[0] == '%' then s[3..] else s[1..]);
        if rest.None? then None else Some([head.value] + rest.value)
  }

  /** An escape is three characters for one, so only a text without any is read as itself. */
  lemma {:induction false} UnescapeShrinks(s: string)
    ensures Unescape(s).Some? ==> |Unescape(s).value| <= |s|
    ensures Unescape(s).Some? && '%' in s ==> |Unescape(s).value| < |s|
    ensures '%' !in s ==> Unescape(s) == Some(s)
    decreases |s|
  {
    if s == "" {
    } else if s[0] == '%' {
      if EscapedHead(s).Some? { UnescapeShrinks(s[3..]); }
    } else {
      UnescapeShrinks(s[1..]);
      assert s == [s[0]] + s[1..];
    }
  }

  /** The server reads a filing's ID as it was sent exactly when the filing is addressable. */
  lemma ReadAsSentExactlyWhen(f: FilingKey)
    requires OneSegment(f.filingId)
    ensures Unescape(f.filingId) == Some(f.filingId) <==> Addressable(f)
  {
    UnescapeShrinks(f.filingId);
  }

  lemma {:induction false} UnescapeAfterPlain(plain: string, s: string)
    requires '%' !in plain
    ensures Unescape(plain + s) == if Unescape(s).None? then None else Some(plain + Unescape(s).value)
    decreases |plain|
  {
    if plain == "" {
      assert plain + s == s;
      assert Unescape(s).Some? ==> plain + Unescape(s).value == Unescape(s).value;
    } else {
      assert (plain + s)[1..] == plain[1..] + s;
      UnescapeAfterPlain(plain[1..], s);
      assert Unescape(s).Some? ==> [plain[0]] + (plain[1..] + Unescape(s).value) == plain + Unescape(s).value;
    }
  }

  lemma {:induction false} UnescapeBeforePlain(s: string, plain: string)
    requires '%' !in plain && Unescape(s).Some?
    ensures Unescape(s + plain) == Some(Unescape(s).value + plain)
    decreases |s|
  {
    if s == "" {
      assert s + plain == plain && "" + plain == plain;
      UnescapeShrinks(plain);
    } else {
      var n := if s[0] == '%' then 3 else 1;
      assert (s + plain)[n..] == s[n..] + plain;
      UnescapeBeforePlain(s[n..], plain);
      var rest := Unescape(s[n..]).value;
      assert Unescape(s).value + plain == Unescape(s).value[..1] + (rest + plain);
    }
  }

  /** Lookups of the one filing find the other one, which has an ID of its own that is found. */
  predicate ReadAs(f: FilingKey, g: FilingKey) {
    && OneSegment(f.filingId) && Addressable(g)
    && Unescape(f.filingId) == Some(g.filingId) && f.taxYear == g.taxYear && f != g
  }

  lemma YearIsPlain(f: FilingKey)
    ensures '%' !in "-y" + Decimal(f.taxYear)
  {
    DecimalShape(f.taxYear);
    DigitsShape(if f.taxYear < 0 then -f.taxYear else f.taxYear);
  }

  /** It then happens at both services: the provider, too, reads the other's operation ID. */
  lemma OperationIsReadAs(f: FilingKey, g: FilingKey)
    requires ReadAs(f, g)
    ensures Unescape(ProviderOperationID(f)) == Some(ProviderOperationID(g))
  {
    var year := "-y" + Decimal(f.taxYear);
    YearIsPlain(f);
    UnescapeBeforePlain(f.filingId, year);
    UnescapeAfterPlain("filing-", f.filingId + year);
    assert ProviderOperationID(f) == "filing-" + (f.filingId + year);
    assert ProviderOperationID(g) == "filing-" + (g.filingId + year);
  }

  lemma ReadAsIsNotAddressable(f: FilingKey, g: FilingKey)
    requires ReadAs(f, g)
    ensures !Addressable(f)
  {
    ReadAsSentExactlyWhen(f);
  }

  /** There are such filings. */
  lemma SomeIDsAreReadAsOthers(taxYear: int)
    ensures ReadAs(FilingKey("a%62", taxYear), FilingKey("ab", taxYear))
  {
    var s, escape := "a%62", "%62";
    assert s[1..] == escape && escape[3..] == "";
    assert EscapedHead(escape) == Some('b');
    assert Unescape(escape[3..]) == Some("") && ['b'] + "" == "b";
    assert Unescape(escape) == Some("b") && ['a'] + "b" == "ab";
    assert Unescape(s) == Some("ab");
  }

  // ---------- What it leads to ----------

  lemma MisreadExchange(f: FilingKey, s: State, r: StepResult)
    requires Asking(s) && !Addressable(f)
    requires Misleading(f, RequestOf(f, PositionOf(f, s.wf.value)), Got(r))
    ensures var s' := Exchanged(f, s, Misread(Got(r)));
      && Asking(s') && SameServices(s, s') && s'.wf.value.polls == s.wf.value.polls
      && PositionOf(f, s'.wf.value) == Advance(f, s.wf.value.polls, PositionOf(f, s.wf.value), r)
  {
    assert Step(f, s, Misread(Got(r))) == WithReply(s, Got(r));
    Exchange(f, s, Misread(Got(r)), r);
  }

  /** An exchange that takes the workflow on, in a state that satisfies the invariant. */
  lemma MisreadReaches(f: FilingKey, s: State, r: StepResult, at: Position, next: Position, row: FilingRow)
    requires Reaches(f, s, at, row, 1) && !Addressable(f)
    requires Misleading(f, RequestOf(f, at), Got(r)) && Advance(f, 1, at, r) == next
    ensures Reaches(f, Exchanged(f, s, Misread(Got(r))), next, row, 1)
  {
    MisreadExchange(f, s, r);
    ExchangeKeepsInv(f, s, Misread(Got(r)));
  }

  /** What the other filing's row is when it has just been seeded, and when it is accepted; and
      what the provider says of its operation once that is completed. */
  function SeededRow(): StepResult {
    FilingRead(FilingRow(ScenarioOK, Ready, None))
  }

  function AcceptedRow(g: FilingKey): StepResult {
    FilingRead(FilingRow(ScenarioOK, Accepted, Some(ProviderOperationID(g))))
  }

  function AcceptedOperation(g: FilingKey): StepResult {
    StatusRead(Found(ProviderOperationID(g), Completed, OutcomeAccepted))
  }

  const BEGINNING := [Seed(ScenarioOK), Start(ScenarioOK, 1), Begin]

  lemma AnswersMislead(f: FilingKey, g: FilingKey)
    requires ReadAs(f, g)
    ensures Misleading(f, ReadFiling, Got(SeededRow())) && Misleading(f, ReadFiling, Got(AcceptedRow(g)))
    ensures Misleading(f, ReadStatus(ProviderOperationID(f)), Got(AcceptedOperation(g)))
  {
    if ProviderOperationID(f) == ProviderOperationID(g) { WorkflowIDsNeverCollide(f, g); }
    assert ProviderOperationID(g)[0] == 'f';
  }

  lemma OpenOutcomeApplies(f: FilingKey, s: State, row: FilingRow, o: Outcome, detail: string)
    requires Inv(f, s) && s.row == Some(row) && row.state == Submitting && o == OutcomeAccepted
    ensures var s' := HandleCommand(f, s, OutcomeSlot, OutcomeCommand(MapOutcome(o)), detail).0;
      s'.row == Some(row.(state := Accepted)) && s'.cell == s.cell
  {
    assert CommandKey(f, OutcomeSlot)[0] == 'f';
  }

  lemma ForeignRowReturns(f: FilingKey, s: State, row: FilingRow, g: FilingKey)
    requires ReadAs(f, g) && Reaches(f, s, AtValidate, row, 1)
    ensures Reaches(f, Exchanged(f, s, Misread(Got(AcceptedRow(g)))),
                    Returned(FilingResult(AlreadyFinal, AlreadyIn(Accepted))), row, 1)
  {
    ReadAsIsNotAddressable(f, g);
    AnswersMislead(f, g);
    MisreadReaches(f, s, AcceptedRow(g), AtValidate, Returned(FilingResult(AlreadyFinal, AlreadyIn(Accepted))), row);
  }

  /** A row that names another operation stops the workflow before it does anything. */
  lemma ForeignOperationFails(f: FilingKey, s: State, row: FilingRow, foreign: FilingRow)
    requires !Addressable(f) && Reaches(f, s, AtValidate, row, 1)
    requires Foreign(f, foreign) && foreign.state != Ready && !Terminal(foreign.state)
    ensures Reaches(f, Exchanged(f, s, Misread(Got(FilingRead(foreign)))), Failed("provider operation mismatch"),
        row, 1)
  {
    MisreadReaches(f, s, FilingRead(foreign), AtValidate, Failed("provider operation mismatch"), row);
  }

  lemma ReturnSettles(f: FilingKey, s: State, row: FilingRow, result: FilingResult)
    requires Reaches(f, s, Returned(result), row, 1)
    ensures var s' := Step(f, s, Settle);
      s'.wf.Some? && s'.wf.value.status == Succeeded(result) && s'.row == Some(row) && s'.cell.entry.None?
  {
  }

  /** The workflow takes the other filing's row for its own and returns as if all was done. */
  lemma MisreadAsFinal(f: FilingKey, g: FilingKey)
    requires ReadAs(f, g)
    ensures var s := Reached(f, BEGINNING + ([Misread(Got(AcceptedRow(g))), Checkpoint] + [Settle]));
      && s.wf.Some? && s.wf.value.status == Succeeded(FilingResult(AlreadyFinal, AlreadyIn(Accepted)))
      && s.row == Some(FilingRow(ScenarioOK, Ready, None)) && s.cell.entry.None?
  {
    var row, a := FilingRow(ScenarioOK, Ready, None), Misread(Got(AcceptedRow(g)));
    Begun(f, NEW_FILING);
    var s := RunAll(f, NEW_FILING, BEGINNING);
    ForeignRowReturns(f, s, row, g);
    ReturnSettles(f, Exchanged(f, s, a), row, FilingResult(AlreadyFinal, AlreadyIn(Accepted)));
    RunConcat(f, NEW_FILING, BEGINNING, [a, Checkpoint] + [Settle]);
    RunExchange(f, s, a, [Settle]);
    OneAction(f, Exchanged(f, s, a), Settle);
  }

  lemma ForeignIsFound(f: FilingKey, s: State, row: FilingRow, g: FilingKey)
    returns (s': State, detail: string, text: string)
    requires ReadAs(f, g) && Reaches(f, s, AtFindExisting(Submitting), row, 1)
    ensures s' == Exchanged(f, s, Misread(Got(AcceptedOperation(g))))
    ensures Reaches(f, s', RecordThenReturn(OutcomeAccepted, detail, text), row, 1)
  {
    var id := ProviderOperationID(g);
    detail, text := "adopted completed submission " + id, "adopted submission " + id;
    ReadAsIsNotAddressable(f, g);
    AnswersMislead(f, g);
    var next := RecordThenReturn(OutcomeAccepted, detail, text);
    MisreadReaches(f, s, AcceptedOperation(g), AtFindExisting(Submitting), next, row);
    s' := Exchanged(f, s, Misread(Got(AcceptedOperation(g))));
  }

  lemma ForeignIsRecorded(f: FilingKey, s: State, row: FilingRow, detail: string, text: string)
    requires Reaches(f, s, RecordThenReturn(OutcomeAccepted, detail, text), row, 1) && row.state == Submitting
    ensures var s' := Step(f, s, Handle(true)); s'.row == Some(row.(state := Accepted)) && s'.cell.entry.None?
  {
    OpenOutcomeApplies(f, s, row, OutcomeAccepted, detail);
  }

  /** From its own lookup on, the workflow adopts the other filing's operation. */
  lemma ForeignIsAdopted(f: FilingKey, s: State, row: FilingRow, g: FilingKey)
    requires ReadAs(f, g) && Reaches(f, s, AtFindExisting(Submitting), row, 1) && row.state == Submitting
    ensures var s' := RunAll(f, s, [Misread(Got(AcceptedOperation(g))), Checkpoint] + [Handle(true)]);
      s'.row == Some(row.(state := Accepted)) && s'.cell.entry.None?
  {
    var s1, detail, text := ForeignIsFound(f, s, row, g);
    ForeignIsRecorded(f, s1, row, detail, text);
    RunExchange(f, s, Misread(Got(AcceptedOperation(g))), [Handle(true)]);
    OneAction(f, s1, Handle(true));
  }

  /** From its validation on, it declares its own intent. */
  lemma ForeignIsValidated(f: FilingKey, s: State, row: FilingRow, g: FilingKey, rest: seq<Action>)
    returns (s2: State)
    requires ReadAs(f, g) && Reaches(f, s, AtValidate, row, 1) && row.state == Ready
    ensures RunAll(f, s, [Misread(Got(SeededRow())), Checkpoint] + ([Handle(true), Checkpoint] + rest))
            == RunAll(f, s2, rest)
    ensures Reaches(f, s2, AtFindExisting(Submitting), Prepare(f, row), 1)
  {
    var read := Misread(Got(SeededRow()));
    ReadAsIsNotAddressable(f, g);
    AnswersMislead(f, g);
    MisreadReaches(f, s, SeededRow(), AtValidate, AtPrepare, row);
    var s1 := Exchanged(f, s, read);
    Prepared(f, s1, row, 1);
    s2 := Exchanged(f, s1, Handle(true));
    RunExchange(f, s, read, [Handle(true), Checkpoint] + rest);
    RunExchange(f, s1, Handle(true), rest);
  }

  /** The workflow declares its own intent, adopts the other filing's operation and records its
      outcome: the filing is accepted, and the provider has never heard of it. */
  lemma MisreadOutcomeIsRecorded(f: FilingKey, g: FilingKey)
    requires ReadAs(f, g)
    ensures var s := Reached(f, BEGINNING + ([Misread(Got(SeededRow())), Checkpoint]
        + ([Handle(true), Checkpoint] + ([Misread(Got(AcceptedOperation(g))), Checkpoint] + [Handle(true)]))));
      s.row.Some? && s.row.value.state == Accepted && s.cell.entry.None?
  {
    var row := FilingRow(ScenarioOK, Ready, None);
    var adopt := [Misread(Got(AcceptedOperation(g))), Checkpoint] + [Handle(true)];
    Begun(f, NEW_FILING);
    var s := RunAll(f, NEW_FILING, BEGINNING);
    var s2 := ForeignIsValidated(f, s, row, g, adopt);
    ForeignIsAdopted(f, s2, Prepare(f, row), g);
    RunConcat(f, NEW_FILING, BEGINNING, [Misread(Got(SeededRow())), Checkpoint] + ([Handle(true), Checkpoint] + adopt));
  }

  /** For filings whose lookups find some filing: whether Accountable always agrees with the
      provider about them depends on nothing but their ID. */
  lemma OutcomesAgreeExactlyWhen(f: FilingKey, g: FilingKey)
    requires f == g || ReadAs(f, g)
    requires Addressable(g)
    ensures (forall actions: seq<Action> :: Agrees(Reached(f, actions))) <==> Addressable(f)
  {
    if Addressable(f) {
      forall actions: seq<Action>
        ensures Agrees(Reached(f, actions))
      {
        OutcomesAgree(f, actions);
      }
    } else {
      MisreadOutcomeIsRecorded(f, g);
    }
  }
}
