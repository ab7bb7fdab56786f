/** Several polls of the event consumer: the blocked partitions are forgotten between them, so
    an event that one poll leaves behind may be passed by the commit of a later one. */
module Polls {
  import opened Domain
  import opened Consumer

  lemma PollOne(s: Starts, r: Record, w: Weather)
    ensures Poll(s, [r], [w]) == Take(Batch(s, [], {}), r, w)
  {
    PollStep(s, [r], [w], 0);
    assert [r][..1] == [r] && [w][..1] == [w];
  }

  lemma {:induction false} NoneYet(s: Starts, fetched: seq<Record>, weather: seq<Weather>, p: TopicPartition)
    requires |weather| == |fetched|
    requires forall r :: r in fetched ==> r.source != p
    ensures var b := Poll(s, fetched, weather); p !in b.blocked && Of(p, b.processed) == []
    decreases |fetched|
  {
    if fetched != [] {
      var n := |fetched| - 1;
      NoneYet(s, fetched[..n], weather[..n], p);
      TakeIsLocal(Poll(s, fetched[..n], weather[..n]), fetched[n], weather[n], p);
    }
  }

  /** Within a poll the acknowledged records of a partition only grow, and not at all once it
      is blocked. */
  lemma {:induction false} Continues(s: Starts, fetched: seq<Record>, weather: seq<Weather>, p: TopicPartition, i: nat)
    requires |weather| == |fetched| && i <= |fetched|
    ensures var b, b' := Poll(s, fetched[..i], weather[..i]), Poll(s, fetched, weather);
      && Of(p, b.processed) <= Of(p, b'.processed)
      && (p in b.blocked ==> p in b'.blocked && Of(p, b'.processed) == Of(p, b.processed))
    decreases |fetched|
  {
    if i == |fetched| {
      assert fetched[..i] == fetched && weather[..i] == weather;
    } else {
      var n := |fetched| - 1;
      Continues(s, fetched[..n], weather[..n], p, i);
      assert fetched[..n][..i] == fetched[..i] && weather[..n][..i] == weather[..i];
      TakeIsLocal(Poll(s, fetched[..n], weather[..n]), fetched[n], weather[n], p);
    }
  }

  /** A poll commits something of a partition exactly when the first record it fetched from it
      is handled. */
  lemma CommitsOnlyIfHeadIsDone(s: Starts, fetched: seq<Record>, weather: seq<Weather>, p: TopicPartition, i: nat)
    requires |weather| == |fetched| && i < |fetched|
    requires fetched[i].source == p && forall j :: 0 <= j < i ==> fetched[j].source != p
    ensures Of(p, Poll(s, fetched, weather).processed) != [] <==>
              HandleRecord(Poll(s, fetched[..i], weather[..i]).starts, fetched[i], weather[i]).done
  {
    NoneYet(s, fetched[..i], weather[..i], p);
    var b := Poll(s, fetched[..i], weather[..i]);
    var after := Poll(s, fetched[..i + 1], weather[..i + 1]);
    PollStep(s, fetched, weather, i);
    TakeIsLocal(b, fetched[i], weather[i], p);
    assert Of(p, after.processed) == (if HandleRecord(b.starts, fetched[i], weather[i]).done then [fetched[i]] else []);
    Continues(s, fetched, weather, p, i + 1);
  }

  // ---------- Runs of polls ----------

  /** What one poll fetches, what happens to each record, and whether the commit goes through. */
  datatype Fetch = Fetch(records: seq<Record>, weather: seq<Weather>, committed: bool) {
    predicate Valid() {
      |records| == |weather|
    }
  }

  predicate AllValid(fetches: seq<Fetch>) {
    forall f :: f in fetches ==> f.Valid()
  }

  function PollFetch(s: Starts, f: Fetch): Batch
    requires f.Valid()
  {
    Poll(s, f.records, f.weather)
  }

  /** The records that one poll commits: those it processed, unless the commit fails, which the
      client only reports. */
  function Committed(f: Fetch, b: Batch): seq<Record> {
    if f.committed then b.processed else []
  }

  /** The records committed by a run of polls. */
  function Commits(s: Starts, fetches: seq<Fetch>): seq<Record>
    requires AllValid(fetches)
    decreases |fetches|
  {
    if fetches == [] then []
    else
      var b := PollFetch(s, fetches[0]);
      Committed(fetches[0], b) + Commits(b.starts, fetches[1..])
  }

  function AllFetched(fetches: seq<Fetch>): seq<Record>
    decreases |fetches|
  {
    if fetches == [] then [] else fetches[0].records + AllFetched(fetches[1..])
  }

  /** Where the first record of a partition is, or the length when there is none. */
  function FirstOf(p: TopicPartition, records: seq<Record>): (i: nat)
    ensures i <= |records| && (i < |records| ==> records[i].source == p)
    ensures forall j :: 0 <= j < i ==> records[j].source != p
  {
    if records == [] then 0
    else if records[0].source == p then 0
    else 1 + FirstOf(p, records[1..])
  }

  /** The first record that a poll fetches from a partition is ready when its turn comes. */
  predicate HeadIsReady(p: TopicPartition, s: Starts, f: Fetch)
    requires f.Valid()
  {
    var i := FirstOf(p, f.records);
    && i < |f.records|
    && Ready(Poll(s, f.records[..i], f.weather[..i]).starts, f.records[i], f.weather[i])
  }

  /** In some poll that record is ready, and the commit goes through. */
  predicate SomeHeadIsReady(p: TopicPartition, s: Starts, fetches: seq<Fetch>)
    requires AllValid(fetches)
    decreases |fetches|
  {
    fetches != [] && ((HeadIsReady(p, s, fetches[0]) && fetches[0].committed)
        || SomeHeadIsReady(p, PollFetch(s, fetches[0]).starts, fetches[1..]))
  }

  lemma OthersStartElsewhere(b: Batch, r: Record, w: Weather, f: FilingKey)
    requires WorkflowID(f) !in b.starts.inputs && (r.event.Some? ==> r.event.value.filing != f)
    ensures WorkflowID(f) !in Take(b, r, w).starts.inputs
  {
    if r.event.Some? {
      var g := r.event.value.filing;
      if WorkflowID(g) == WorkflowID(f) { WorkflowIDsNeverCollide(g, f); }
    }
  }

  lemma {:induction false} OnlyItsOwnEventStarts(s: Starts, fetched: seq<Record>, weather: seq<Weather>, f: FilingKey)
    requires |weather| == |fetched| && WorkflowID(f) !in s.inputs
    requires forall q :: q in fetched && q.event.Some? ==> q.event.value.filing != f
    ensures WorkflowID(f) !in Poll(s, fetched, weather).starts.inputs
    decreases |fetched|
  {
    if fetched != [] {
      var n := |fetched| - 1;
      OnlyItsOwnEventStarts(s, fetched[..n], weather[..n], f);
      OthersStartElsewhere(Poll(s, fetched[..n], weather[..n]), fetched[n], weather[n], f);
    }
  }

  /** Another partition's records matter to that turn only if they are for the same filing: the
      stored input from before the poll decides whenever there is one, or nobody else makes one. */
  lemma ReadyBeforehand(s: Starts, before: Fetch, r: Record, w: Weather)
    requires before.Valid() && r.event.Some?
    requires WorkflowID(r.event.value.filing) in s.inputs
             || forall q :: q in before.records && q.event.Some? ==> q.event.value.filing != r.event.value.filing
    ensures Ready(PollFetch(s, before).starts, r, w) <==> Ready(s, r, w)
  {
    AcknowledgedIsBacked(s, before.records, before.weather);
    if WorkflowID(r.event.value.filing) !in s.inputs {
      OnlyItsOwnEventStarts(s, before.records, before.weather, r.event.value.filing);
    }
  }

  // ---------- When an event is passed ----------

  lemma {:induction false} OfConcat(p: TopicPartition, a: seq<Record>, b: seq<Record>)
    ensures Of(p, a + b) == Of(p, a) + Of(p, b)
    decreases |b|
  {
    if b == [] {
      assert a + b == a;
    } else {
      var n := |b| - 1;
      OfConcat(p, a, b[..n]);
      assert a + b == (a + b[..n]) + [b[n]];
      OfAppend(p, a + b[..n], b[n]);
    }
  }

  lemma {:induction false} InOf(p: TopicPartition, records: seq<Record>, r: Record)
    ensures r in Of(p, records) <==> r in records && r.source == p
    decreases |records|
  {
    if records != [] {
      var n := |records| - 1;
      InOf(p, records[..n], r);
      assert records == records[..n] + [records[n]];
    }
  }

  lemma CommitsHead(p: TopicPartition, s: Starts, f: Fetch)
    requires f.Valid()
    ensures Of(p, PollFetch(s, f).processed) != [] <==> HeadIsReady(p, s, f)
  {
    var i := FirstOf(p, f.records);
    if i < |f.records| {
      CommitsOnlyIfHeadIsDone(s, f.records, f.weather, p, i);
      DoneExactlyWhenReady(Poll(s, f.records[..i], f.weather[..i]).starts, f.records[i], f.weather[i]);
    } else {
      NoneYet(s, f.records, f.weather, p);
    }
  }

  lemma {:induction false} CommitsSomething(p: TopicPartition, s: Starts, fetches: seq<Fetch>)
    requires AllValid(fetches)
    ensures Of(p, Commits(s, fetches)) != [] <==> SomeHeadIsReady(p, s, fetches)
    decreases |fetches|
  {
    if fetches != [] {
      var b := PollFetch(s, fetches[0]);
      CommitsHead(p, s, fetches[0]);
      CommitsSomething(p, b.starts, fetches[1..]);
      OfConcat(p, Committed(fetches[0], b), Commits(b.starts, fetches[1..]));
    }
  }

  /** Only fetched records are committed. */
  lemma {:induction false} CommittedWasFetched(p: TopicPartition, s: Starts, fetches: seq<Fetch>, r: Record)
    requires AllValid(fetches) && r in Of(p, Commits(s, fetches))
    ensures r in Of(p, AllFetched(fetches))
    decreases |fetches|
  {
    var f := fetches[0];
    var b := PollFetch(s, f);
    OfConcat(p, Committed(f, b), Commits(b.starts, fetches[1..]));
    OfConcat(p, f.records, AllFetched(fetches[1..]));
    AcknowledgedIsPrefix(s, f.records, f.weather, p);
    if r in Of(p, Commits(b.starts, fetches[1..])) {
      CommittedWasFetched(p, b.starts, fetches[1..], r);
    }
  }

  ghost predicate Rising(records: seq<Record>) {
    forall i, j :: 0 <= i < j < |records| ==> records[i].offset < records[j].offset
  }

  /** Offsets of a partition rise from record to record and from poll to poll: the client goes
      on from where it was and does not fetch a record twice. */
  ghost predicate Ascending(p: TopicPartition, records: seq<Record>) {
    Rising(Of(p, records))
  }

  lemma RisesAcross(a: seq<Record>, b: seq<Record>, k: nat, j: nat)
    requires Rising(a + b) && k < |a| && j < |b|
    ensures a[k].offset < b[j].offset
  {
    assert (a + b)[k] == a[k] && (a + b)[|a| + j] == b[j];
  }

  /** The event at which a poll blocked a partition. */
  function HeldBack(p: TopicPartition, s: Starts, f: Fetch): Record
    requires f.Valid() && p in PollFetch(s, f).blocked
  {
    AcknowledgedIsPrefix(s, f.records, f.weather, p);
    Of(p, f.records)[|Of(p, PollFetch(s, f).processed)|]
  }

  /** Committing a record of its partition with a higher offset passes an event for good. */
  ghost predicate Passed(h: Record, committed: seq<Record>) {
    exists r :: r in committed && r.source == h.source && r.offset > h.offset
  }

  /** The records of a partition that come after a poll have higher offsets than all of its own. */
  lemma LaterIsHigher(p: TopicPartition, first: seq<Record>, rest: seq<Record>, k: nat, r: Record)
    requires Ascending(p, first + rest) && k < |Of(p, first)| && r in Of(p, rest)
    ensures Of(p, first)[k].offset < r.offset
  {
    OfConcat(p, first, rest);
    var j :| 0 <= j < |Of(p, rest)| && Of(p, rest)[j] == r;
    RisesAcross(Of(p, first), Of(p, rest), k, j);
  }

  lemma RisesWithin(done: seq<Record>, own: seq<Record>, rest: seq<Record>, i: nat)
    requires Rising(own + rest) && done < own && i < |done|
    ensures done[i].offset < own[|done|].offset
  {
    assert (own + rest)[i] == done[i] && (own + rest)[|done|] == own[|done|];
  }

  /** What a poll did commit of a partition it blocked lies below the event held back. */
  lemma OwnIsLower(p: TopicPartition, s: Starts, f: Fetch, rest: seq<Record>, r: Record)
    requires f.Valid() && p in PollFetch(s, f).blocked && Ascending(p, f.records + rest)
    requires r in Of(p, PollFetch(s, f).processed)
    ensures r.offset < HeldBack(p, s, f).offset
  {
    AcknowledgedIsPrefix(s, f.records, f.weather, p);
    OfConcat(p, f.records, rest);
    var done := Of(p, PollFetch(s, f).processed);
    var i :| 0 <= i < |done| && done[i] == r;
    RisesWithin(done, Of(p, f.records), Of(p, rest), i);
  }

  lemma HeldBackIsOfPartition(p: TopicPartition, s: Starts, f: Fetch)
    requires f.Valid() && p in PollFetch(s, f).blocked
    ensures HeldBack(p, s, f).source == p && |Of(p, PollFetch(s, f).processed)| < |Of(p, f.records)|
  {
    AcknowledgedIsPrefix(s, f.records, f.weather, p);
    InOf(p, f.records, HeldBack(p, s, f));
  }

  /** An event that a poll leaves behind is passed for good, and never acknowledged, exactly
      when the first record that some later poll fetches from its partition is ready and that
      poll's commit goes through; without a restart of the client it is never fetched again. */
  lemma PassedExactlyWhenALaterHeadIsReady(p: TopicPartition, s: Starts, first: Fetch, later: seq<Fetch>)
    requires first.Valid() && AllValid(later) && p in PollFetch(s, first).blocked
    requires Ascending(p, first.records + AllFetched(later))
    ensures var b := PollFetch(s, first); var committed := Committed(first, b) + Commits(b.starts, later);
      && (Passed(HeldBack(p, s, first), committed) <==> SomeHeadIsReady(p, b.starts, later))
      && HeldBack(p, s, first) !in committed
  {
    var b := PollFetch(s, first);
    var h := HeldBack(p, s, first);
    var after := Commits(b.starts, later);
    var committed := Committed(first, b) + after;
    HeldBackIsOfPartition(p, s, first);
    CommitsSomething(p, b.starts, later);
    forall r | r in committed && r.source == p
      ensures r.offset < h.offset || (r in Of(p, after) && r.offset > h.offset)
    {
      InOf(p, b.processed, r);
      InOf(p, after, r);
      if r in Of(p, b.processed) {
        OwnIsLower(p, s, first, AllFetched(later), r);
      } else {
        CommittedWasFetched(p, b.starts, later, r);
        LaterIsHigher(p, first.records, AllFetched(later), |Of(p, b.processed)|, r);
      }
    }
    if SomeHeadIsReady(p, b.starts, later) {
      var r := Of(p, after)[0];
      InOf(p, after, r);
      CommittedWasFetched(p, b.starts, later, r);
      LaterIsHigher(p, first.records, AllFetched(later), |Of(p, b.processed)|, r);
      assert r in committed;
    }
  }

  /** So it happens: a start that fails in one poll is passed in the next. */
  lemma LaterPollMayPassABlockedEvent()
    ensures exists s: Starts, first: Record, second: Record, storm: Weather ::
      && first.source == second.source && first.offset < second.offset
      && Poll(s, [first], [storm]).processed == []
      && Poll(Poll(s, [first], [storm]).starts, [second], [CALM]).processed == [second]
  {
    var s := Starts(map[], map[]);
    var p := TopicPartition("filing-events", 0);
    var first := Record(p, 0, Some(FilingEvent("e0", FilingKey("a", 2025), ScenarioOK)));
    var second := Record(p, 1, None);
    var storm := Weather(true, false, false, false, false);
    PollOne(s, first, storm);
    PollOne(Poll(s, [first], [storm]).starts, second, CALM);
  }

  /** And nothing need fail: a clash that cannot be put on file blocks its partition for one
      poll, and the next one commits past it; nobody ever hears of the clash. */
  lemma UnreportableClashIsPassedOver()
    ensures exists s: Starts, clash: Record, next: Record ::
      && clash.source == next.source && clash.offset < next.offset
      && PollFetch(s, Fetch([clash], [CALM], true)) == Batch(s, [], {clash.source})
      && PollFetch(s, Fetch([next], [CALM], true)) == Batch(s, [next], {})
      && !Backed(s, clash)
  {
    var f := FilingKey("a", 2025);
    var s := Starts(map[WorkflowID(f) := Some(FilingInput(f, ScenarioOK))], map[]);
    var p := TopicPartition("filing-events", 0);
    var clash := Record(p, 0, Some(FilingEvent("", f, ScenarioReject)));
    var next := Record(p, 1, None);
    PollOne(s, clash, CALM);
    PollOne(s, next, CALM);
    UnreportableClashIsNeverDone(s, clash, CALM);
    assert PollFetch(s, Fetch([clash], [CALM], true)) == Batch(s, [], {p});
    assert PollFetch(s, Fetch([next], [CALM], true)) == Batch(s, [next], {});
    assert !Backed(s, clash);
  }
}
