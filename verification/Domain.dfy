/** Identities shared by every component: filings, workflow and provider operation
    IDs, and the four idempotency keys derived from them. */
module Domain {
  datatype Option<+T> = None | Some(value: T)

  datatype FilingKey = FilingKey(filingId: string, taxYear: int)

  datatype Scenario =
    | ScenarioOK
    | ScenarioDelayed
    | ScenarioReject
    | ScenarioRateLimit
    | ScenarioRateLimitExhausted
    | ScenarioTransientServerError
    | ScenarioTimeoutLost
    | ScenarioTimeoutAmbiguous
    | ScenarioDupCallback
    | ScenarioLateCallback
    | ScenarioNoCallbackDone
    | ScenarioOther(name: string)

  datatype FilingInput = FilingInput(filing: FilingKey, scenario: Scenario)

  /** The provider's verdict on an operation; NoOutcome is the empty string of the source. */
  datatype Outcome = NoOutcome | OutcomeAccepted | OutcomeRejected

  /** The two durable states a provider operation goes through. */
  datatype Progress = Processing | Completed

  datatype Callback = Callback(id: string, submissionId: string, outcome: Outcome)

  function Lookup<K, V>(m: map<K, V>, k: K): Option<V> {
    if k in m then Some(m[k]) else None
  }

  // ---------- Decimal rendering of a year ----------

  predicate IsDigit(c: char) {
    '0' <= c <= '9'
  }

  function Digit(d: nat): char
    requires d < 10
  {
    ('0' as int + d) as char
  }

  function Digits(n: nat): string {
    if n < 10 then [Digit(n)] else Digits(n / 10) + [Digit(n % 10)]
  }

  /** What the source's decimal verb prints for an integer. */
  function Decimal(i: int): string {
    if i < 0 then ['-'] + Digits(-i) else Digits(i)
  }

  lemma {:induction false} DigitsShape(n: nat)
    ensures |Digits(n)| > 0 && forall i :: 0 <= i < |Digits(n)| ==> IsDigit(Digits(n)[i])
  {
    if n >= 10 {
      DigitsShape(n / 10);
    }
  }

  /** A decimal ends in a digit, and the letter y does not occur in it. */
  lemma DecimalShape(i: int)
    ensures var s := Decimal(i); |s| > 0 && IsDigit(s[|s| - 1]) && 'y' !in s
    ensures i < 0 <==> Decimal(i)[0] == '-'
  {
    DigitsShape(if i < 0 then -i else i);
  }

  lemma {:induction false} DigitsInjective(a: nat, b: nat)
    requires Digits(a) == Digits(b)
    ensures a == b
  {
    var s, t := Digits(a), Digits(b);
    DigitsShape(a / 10);
    DigitsShape(b / 10);
    if a >= 10 && b >= 10 {
      assert s[..|s| - 1] == Digits(a / 10) && t[..|t| - 1] == Digits(b / 10);
      assert s[|s| - 1] == Digit(a % 10) && t[|t| - 1] == Digit(b % 10);
      DigitsInjective(a / 10, b / 10);
    } else if a < 10 && b < 10 {
      assert s[0] == Digit(a) && t[0] == Digit(b);
    }
  }

  lemma DecimalInjective(a: int, b: int)
    requires Decimal(a) == Decimal(b)
    ensures a == b
  {
    var s := Decimal(a);
    DecimalShape(a);
    DecimalShape(b);
    if a < 0 {
      assert s[1..] == Digits(-a) == Digits(-b);
      DigitsInjective(-a, -b);
    } else {
      DigitsInjective(a, b);
    }
  }

  // ---------- Workflow, provider operation and command identities ----------

  function WorkflowID(f: FilingKey): string {
    "filing-" + f.filingId + "-y" + Decimal(f.taxYear)
  }

  function ProviderOperationID(f: FilingKey): string {
    "filing-" + f.filingId + "-y" + Decimal(f.taxYear)
  }

  datatype CommandSlot = IntentSlot | SubmittedSlot | OutcomeSlot | ReviewSlot

  function Suffix(k: CommandSlot): string {
    match k
    case IntentSlot => "-submission-intent"
    case SubmittedSlot => "-submitted"
    case OutcomeSlot => "-outcome"
    case ReviewSlot => "-needs-review"
  }

  /** No suffix contains a digit or the letter y. */
  lemma SuffixShape(k: CommandSlot)
    ensures forall i :: 0 <= i < |Suffix(k)| ==> Suffix(k)[i] != 'y' && !IsDigit(Suffix(k)[i])
  {
  }

  function CommandKey(f: FilingKey, k: CommandSlot): string {
    WorkflowID(f) + Suffix(k)
  }

  /** The last marker in a string splits it in only one way. */
  lemma SplitAtLast(mark: char, a: string, d: string, b: string, e: string)
    requires mark !in d && mark !in e
    requires a + [mark] + d == b + [mark] + e
    ensures a == b && d == e
  {
    var s := a + [mark] + d;
    assert s[|a|] == mark && s[|b|] == mark;
    assert forall i :: |a| < i < |s| ==> s[i] == d[i - |a| - 1];
    assert forall i :: |b| < i < |s| ==> s[i] == e[i - |b| - 1];
    assert a == s[..|a|] && b == s[..|b|];
    assert d == s[|a| + 1..] && e == s[|b| + 1..];
  }

  /** A text ending in a digit, followed by digit-free text, splits in only one way. */
  lemma SplitAfterLastDigit(a: string, u: string, b: string, v: string)
    requires |a| > 0 && IsDigit(a[|a| - 1]) && |b| > 0 && IsDigit(b[|b| - 1])
    requires forall i :: 0 <= i < |u| ==> !IsDigit(u[i])
    requires forall i :: 0 <= i < |v| ==> !IsDigit(v[i])
    requires a + u == b + v
    ensures a == b && u == v
  {
    var s := a + u;
    assert s[|a| - 1] == a[|a| - 1] && s[|b| - 1] == b[|b| - 1];
    assert forall i :: |a| <= i < |s| ==> s[i] == u[i - |a|];
    assert forall i :: |b| <= i < |s| ==> s[i] == v[i - |b|];
    assert a == s[..|a|] && b == s[..|b|];
    assert u == s[|a|..] && v == s[|b|..];
  }

  lemma SuffixInjective(j: CommandSlot, k: CommandSlot)
    requires Suffix(j) == Suffix(k)
    ensures j == k
  {
    assert Suffix(IntentSlot)[2] == 'u' && Suffix(SubmittedSlot)[2] == 'u';
    assert |Suffix(IntentSlot)| == 18 && |Suffix(SubmittedSlot)| == 10;
    assert |Suffix(OutcomeSlot)| == 8 && |Suffix(ReviewSlot)| == 13;
  }

  function Stem(filingId: string): string {
    "filing-" + filingId + "-"
  }

  lemma StemInjective(a: string, b: string)
    requires Stem(a) == Stem(b)
    ensures a == b
  {
    assert a == Stem(a)[7..7 + |a|];
    assert b == Stem(b)[7..7 + |b|];
  }

  /** A command key is a stem, the letter y, and a text without that letter. */
  lemma CommandKeyParts(f: FilingKey, k: CommandSlot)
    ensures CommandKey(f, k) == Stem(f.filingId) + ['y'] + (Decimal(f.taxYear) + Suffix(k))
    ensures 'y' !in Decimal(f.taxYear) + Suffix(k)
  {
    DecimalShape(f.taxYear);
    SuffixShape(k);
    assert "-y" == ['-', 'y'];
    assert Stem(f.filingId) == "filing-" + f.filingId + ['-'];
  }

  /** No two commands anywhere share an idempotency key, whatever the filing IDs contain. */
  lemma CommandKeysNeverCollide(f: FilingKey, j: CommandSlot, g: FilingKey, k: CommandSlot)
    requires CommandKey(f, j) == CommandKey(g, k)
    ensures f == g && j == k
  {
    CommandKeyParts(f, j);
    CommandKeyParts(g, k);
    var d, e := Decimal(f.taxYear), Decimal(g.taxYear);
    SplitAtLast('y', Stem(f.filingId), d + Suffix(j), Stem(g.filingId), e + Suffix(k));
    DecimalShape(f.taxYear);
    DecimalShape(g.taxYear);
    SuffixShape(j);
    SuffixShape(k);
    SplitAfterLastDigit(d, Suffix(j), e, Suffix(k));
    SuffixInjective(j, k);
    DecimalInjective(f.taxYear, g.taxYear);
    StemInjective(f.filingId, g.filingId);
  }

  /** One workflow ID, hence one provider operation ID, per filing and year. */
  lemma WorkflowIDsNeverCollide(f: FilingKey, g: FilingKey)
    requires WorkflowID(f) == WorkflowID(g)
    ensures f == g
  {
    CommandKeysNeverCollide(f, OutcomeSlot, g, OutcomeSlot);
  }

  lemma DecimalExamples()
    ensures Decimal(2025) == "2025" && Decimal(-40) == "-40"
  {
    assert Digits(2) == "2" && Digits(20) == "20" && Digits(202) == "202";
    assert Digits(4) == "4" && Digits(40) == "40";
  }

  /** The identities that appear in both services' tables, spelled out. */
  lemma IdentitiesAreCanonical(f: FilingKey)
    requires f == FilingKey("F-17", 2025)
    ensures WorkflowID(f) == "filing-F-17-y2025" && ProviderOperationID(f) == "filing-F-17-y2025"
  {
    DecimalExamples();
  }

  /** And the keys of the four commands. */
  lemma CommandKeysAreCanonical(f: FilingKey)
    ensures CommandKey(f, IntentSlot) == ProviderOperationID(f) + "-submission-intent"
    ensures CommandKey(f, SubmittedSlot) == WorkflowID(f) + "-submitted"
    ensures CommandKey(f, OutcomeSlot) == WorkflowID(f) + "-outcome"
    ensures CommandKey(f, ReviewSlot) == WorkflowID(f) + "-needs-review"
  {
  }

  // ---------- IDs in URLs ----------

  /** IDs that a lookup's URL carries as one path segment: nothing in them ends the path,
      splits it, or is cleaned away. Escapes may still be read as something else. */
  predicate OneSegment(id: string) {
    && id != "" && id != "." && id != ".."
    && forall i :: 0 <= i < |id| ==> id[i] != '/' && id[i] != '?' && id[i] != '#' && 32 <= id[i] as int != 127
  }

  /** Filings whose ID the servers read back as it was sent, although the clients put it into
      the URL unescaped: only for them does a lookup find what is stored under their own ID. */
  predicate Addressable(f: FilingKey) {
    OneSegment(f.filingId) && '%' !in f.filingId
  }
}
