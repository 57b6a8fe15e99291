/** Capacity reserved at admission is enough: the end of an admitted run can always be saved. */
module Settlement {
  import opened Types
  import opened History
  import opened Advance
  import opened Sums
  import opened Encoding
  import opened Storage
  import opened Retention
  import opened Update
  import opened Execution

  // ---- The charge bounds the file

  lemma {:induction false} JobPayloads(jobs: seq<Job>)
    ensures SumSeq(jobs, (j: Job) => JobPayload(j)) <= 4 * SumSeq(jobs, (j: Job) => JobBytes(j))
  {
    if jobs != [] {
      PayloadIsArrayInner(jobs[0].stdout);
      PayloadIsArrayInner(jobs[0].stderr);
      JobPayloads(jobs[1..]);
    }
  }

  lemma {:induction false} EntryPayloads(entries: Entries, keys: set<Invocation>)
    requires keys <= entries.Keys
    ensures Sum(keys, AtEntry(entries, (e: Entry) => OutputLen(e.output)))
         <= 4 * Sum(keys, AtEntry(entries, (e: Entry) => RetainedBytes(e.output)))
    decreases keys
  {
    if keys != {} {
      var k :| k in keys;
      SumTake(keys, AtEntry(entries, (e: Entry) => OutputLen(e.output)), k);
      SumTake(keys, AtEntry(entries, (e: Entry) => RetainedBytes(e.output)), k);
      if entries[k].output.Some? {
        PayloadIsArrayInner(entries[k].output.value.stdout);
        PayloadIsArrayInner(entries[k].output.value.stderr);
      }
      EntryPayloads(entries, keys - {k});
    }
  }

  lemma PayloadBound(s: Store)
    ensures PayloadLen(s) <= 4 * OutputBytes(s)
  {
    JobPayloads(s.jobs);
    EntryPayloads(s.entries, s.entries.Keys);
  }

  lemma ChargeCoversPayload(s: Store, encoded: nat)
    requires PayloadLen(s) <= encoded
    ensures CompletionCharge(s, encoded) >= encoded - PayloadLen(s) + 4 * OUTPUT_BYTES
  {
  }

  /** While the retained bytes are within their budget, the charge is at least the encoded length. */
  lemma ChargeBoundsEncoding(w: Widths, s: Store)
    requires OutputBytes(s) <= OUTPUT_BYTES
    ensures EncodedLen(w, s) <= Charge(w, s)
  {
    PayloadBound(s);
    ChargeCoversPayload(s, EncodedLen(w, s));
  }

  // ---- What finishing one run publishes

  lemma {:induction false} NoneChanged(jobs: seq<Job>, previous: seq<Job>)
    requires forall i :: 0 <= i < |jobs| ==> FindJob(previous, jobs[i].id) == Some(jobs[i])
    ensures ChangedJobs(jobs, previous) == []
  {
    if jobs != [] {
      NoneChanged(jobs[1..], previous);
    }
  }

  lemma {:induction false} OneChanged(jobs: seq<Job>, previous: seq<Job>, i: nat)
    requires i < |jobs| && JobChanged(previous, jobs[i])
    requires forall m :: 0 <= m < |jobs| && m != i ==> FindJob(previous, jobs[m].id) == Some(jobs[m])
    ensures ChangedJobs(jobs, previous) == [jobs[i]]
  {
    if i == 0 {
      NoneChanged(jobs[1..], previous);
    } else {
      OneChanged(jobs[1..], previous, i - 1);
    }
  }

  /** A run this machine admitted and started, whose last published fact says so. */
  ghost predicate InFlight(s: Store, run: Job) {
    && run in s.jobs && run.status.Running? && run.body == s.name
    && run.id in s.certs && BoundTo(s, run, s.certs[run.id])
    && run.id !in s.outputPruned && s.certs[run.id] !in s.historyPruned
    && s.entries[s.certs[run.id]].record.runner.Some?
    && s.entries[s.certs[run.id]].record.runner.value.fact.status.Running?
    && s.entries[s.certs[run.id]].record.runner.value.fact.revision < MAX_U64
  }

  /** What `run_async` can return: bounded streams and reasons, a 32-bit exit code. */
  predicate Plain(o: Outcome) {
    match o
    case Exited(exit, out, err, capture) =>
      && -0x8000_0000 <= exit < 0x8000_0000 && |out| <= STREAM_BYTES && |err| <= STREAM_BYTES
      && (capture.Some? ==> |capture.value| <= STATUS_REASON_BYTES)
    case NotStarted(reason) => |reason| <= STATUS_REASON_BYTES
    case Unknown(reason) => |reason| <= STATUS_REASON_BYTES
  }

  /** The store after the edit and the publication: one row, one fact, one step of the clock. */
  ghost predicate Settled(s: Store, i: nat, fin: Job, r: Store)
    requires i < |s.jobs| && InFlight(s, s.jobs[i])
  {
    var key := s.certs[s.jobs[i].id];
    && r == s.(grants := r.grants, jobs := s.jobs[i := fin], clock := s.clock + 1, entries := r.entries)
    && key in r.entries && r.entries == s.entries[key := r.entries[key]]
    && r.entries[key].change == s.clock + 1
    && r.entries[key].output in {None, s.entries[key].output}
    && r.entries[key].record == SettledRecord(s, key, fin)
  }

  function SettledRecord(s: Store, key: Invocation, fin: Job): Record
    requires key in s.entries && s.entries[key].record.runner.Some?
  {
    var held := s.entries[key].record;
    var f := Fact(key, Runner, held.runner.value.fact.revision + 1, fin.status,
                  OutputOf(fin.stdout), OutputOf(fin.stderr));
    held.(runner := Some(SignedFact(f, Signed(s.key, Statement(f)))))
  }

  lemma FinishEditShape(s: Store, i: nat, o: Outcome, g: Grant)
    requires UniqueIds(s.jobs) && i < |s.jobs|
    ensures FinishEdit(s, g, s.jobs[i], o) == Ok(s.(
      grants := Release(s.grants, g, s.jobs[i].id, Success(o)), jobs := s.jobs[i := Finished(s.jobs[i], o)]))
  {
    IndexOfRow(s.jobs, i);
  }

  lemma OnlyRowChanged(s: Store, i: nat, fin: Job)
    requires UniqueIds(s.jobs) && i < |s.jobs| && fin.id == s.jobs[i].id && fin != s.jobs[i]
    ensures ChangedJobs(s.jobs[i := fin], s.jobs) == [fin]
  {
    var jobs := s.jobs[i := fin];
    forall m | 0 <= m < |jobs| ensures JobIndex(s.jobs, jobs[m].id) == m {
      IndexOfRow(s.jobs, m);
    }
    OneChanged(jobs, s.jobs, i);
  }

  lemma PublishesOne(s: Store, i: nat, o: Outcome, e: Store)
    requires i < |s.jobs| && InFlight(s, s.jobs[i]) && s.clock < MAX_U64
    requires e == s.(grants := e.grants, jobs := s.jobs[i := Finished(s.jobs[i], o)])
    ensures PublishJob(e, s.jobs, Finished(s.jobs[i], o)).Ok?
    ensures Settled(s, i, Finished(s.jobs[i], o), PublishJob(e, s.jobs, Finished(s.jobs[i], o)).value)
  {
    var fin := Finished(s.jobs[i], o);
    var digests := (OutputOf(fin.stdout), OutputOf(fin.stderr));
    assert PublishJob(e, s.jobs, fin) == WriteFact(e, fin, Runner, digests);
  }

  lemma RefreshOfOne(e: Store, s: Store, fin: Job)
    requires ChangedJobs(e.jobs, s.jobs) == [fin] && e.trust == TrustOf(e.peers)
    ensures RefreshOwned(e, s) == PublishJob(e, s.jobs, fin)
  {
    var p := PublishJob(e, s.jobs, fin);
    assert [fin][0] == fin && [fin][1..] == [];
    assert RefreshOwned(e, s) == PublishJobs(e, s.jobs, [fin]);
    assert p.Ok? ==> PublishJobs(p.value, s.jobs, []) == p;
  }

  lemma FinishPublishes(s: Store, i: nat, o: Outcome, g: Grant, e: Store)
    requires GoodStore(s) && i < |s.jobs| && InFlight(s, s.jobs[i]) && s.clock < MAX_U64
    requires FinishEdit(s, g, s.jobs[i], o) == Ok(e)
    ensures RefreshOwned(e, s).Ok? && Settled(s, i, Finished(s.jobs[i], o), RefreshOwned(e, s).value)
  {
    FinishEditShape(s, i, o, g);
    OnlyRowChanged(s, i, Finished(s.jobs[i], o));
    PublishesOne(s, i, o, e);
    RefreshOfOne(e, s, Finished(s.jobs[i], o));
  }

  lemma FinishIsGood(s: Store, e: Store, i: nat)
    requires GoodStore(s) && i < |s.jobs| && |e.jobs| == |s.jobs| && e.jobs == s.jobs[i := e.jobs[i]]
    requires e.jobs[i].id == s.jobs[i].id && Ours(s, e.jobs[i]) && e == s.(jobs := e.jobs, grants := e.grants)
    ensures GoodEdit(s, e)
  {
    AdvancesReflexive(s);
    forall m | 0 <= m < |e.jobs| ensures FreshJob(e, e.jobs[m]) {
      assert RowCertified(s, s.jobs[m]);
    }
  }

  // ---- Its charge

  lemma SmallDigits(n: nat)
    ensures n <= STREAM_BYTES ==> Digits(n) <= 7
    ensures n <= 0x8000_0000 ==> Digits(n) <= 10
  {
    assert Pow10(5) == 100_000;
    assert Pow10(7) == 10_000_000;
    assert Pow10(10) == 10_000_000_000;
    if n <= STREAM_BYTES { DigitsBelow(n, 7); }
    if n <= 0x8000_0000 { DigitsBelow(n, 10); }
  }

  const REASON_LEN: nat := 6 * STATUS_REASON_BYTES + 2

  lemma FinishedStatusLen(run: Job, o: Outcome)
    requires Plain(o)
    ensures StatusLen(Finished(run, o).status) <= 25 + REASON_LEN
  {
    if o.Exited? {
      SmallDigits(if o.exit < 0 then -o.exit else o.exit);
    }
  }

  lemma SettledFactLen(w: Widths, s: Store, key: Invocation, run: Job, o: Outcome)
    requires Plain(o) && Plausible(w) && |run.stdout| <= STREAM_BYTES && |run.stderr| <= STREAM_BYTES
    requires key in s.entries && s.entries[key].record.runner.Some?
    requires s.entries[key].record.runner.value.fact.revision < MAX_U64
    ensures RecordLen(w, SettledRecord(s, key, Finished(run, o)))
         <= RecordLen(w, s.entries[key].record) + 25 + REASON_LEN + 1000
  {
    var fin := Finished(run, o);
    var f := SettledRecord(s, key, fin).runner.value;
    FinishedStatusLen(run, o);
    SmallDigits(|fin.stdout|);
    SmallDigits(|fin.stderr|);
    DigitsOfU64(f.fact.revision);
    assert w.signature(f.signature) <= SIGNATURE_LEN;
  }

  lemma ReleasedGrantsLen(w: Widths, grants: seq<Grant>, g: Grant, id: string, success: Option<bool>)
    ensures var after := Release(grants, g, id, success);
      && SumSeq(after, GrantRow(w)) + Commas(|after|) <= SumSeq(grants, GrantRow(w)) + Commas(|grants|) + NULL_LEN
      && |after| <= |grants|
  {
    var i := ReservedIndex(grants, g.tool, id);
    if g.once && i < |grants| && success.Some? {
      if success.value {
        SumSeqRemove(grants, GrantRow(w), i);
      } else {
        SumSeqUpdate(grants, GrantRow(w), i, grants[i].(reservation := None));
      }
    }
  }

  lemma FinishedRowLen(run: Job, o: Outcome)
    requires run.status.Running?
    ensures var fin := Finished(run, o);
      && JobRow(fin) + 9 == JobRow(run) + StatusLen(fin.status)
      && fin.id == run.id && Pending(fin) == 0 && Pending(run) == 1
  {
  }

  lemma SettledJobCharge(s: Store, i: nat, o: Outcome)
    requires i < |s.jobs| && s.jobs[i].status.Running? && Plain(o)
    ensures SumSeq(s.jobs[i := Finished(s.jobs[i], o)], JobCharge(s.outputPruned)) + COMPLETION_RESERVE
         <= SumSeq(s.jobs, JobCharge(s.outputPruned)) + 25 + REASON_LEN
  {
    var run, fin := s.jobs[i], Finished(s.jobs[i], o);
    FinishedStatusLen(run, o);
    FinishedRowLen(run, o);
    var f := JobCharge(s.outputPruned);
    assert f(run) == JobRow(run) + JobReceiptLen(s.outputPruned, run) + COMPLETION_RESERVE;
    assert f(fin) == JobRow(fin) + JobReceiptLen(s.outputPruned, fin);
    SumSeqUpdate(s.jobs, f, i, fin);
  }

  lemma SettledEntryCharge(w: Widths, entries: Entries, entries': Entries, key: Invocation, pruned: set<Invocation>,
                           d: nat)
    requires key in entries && key in entries' && entries' == entries[key := entries'[key]]
    requires entries[key].change <= MAX_U64 && entries'[key].change <= MAX_U64
    requires entries'[key].output in {None, entries[key].output}
    requires RecordLen(w, entries'[key].record) <= RecordLen(w, entries[key].record) + d
    ensures entries'.Keys == entries.Keys
    ensures Sum(entries'.Keys, EntryCharge(w, entries', pruned))
         <= Sum(entries.Keys, EntryCharge(w, entries, pruned)) + d
  {
    assert entries'.Keys == entries.Keys;
    StampWidth(entries[key].change);
    StampWidth(entries'[key].change);
    SumDrop(entries.Keys, EntryCharge(w, entries, pruned), EntryCharge(w, entries', pruned), key, 0 - d);
  }

  /** The row and the fact that a settled run adds take less than the room its admission reserved. */
  lemma SettlingLowersCharge(w: Widths, s: Store, i: nat, o: Outcome, g: Grant, r: Store)
    requires Plausible(w) && Plain(o) && SoundEntries(s.clock, s.entries)
    requires i < |s.jobs| && InFlight(s, s.jobs[i]) && s.clock < MAX_U64 && s.jobs[i].stdout == s.jobs[i].stderr == []
    requires Settled(s, i, Finished(s.jobs[i], o), r)
    requires r.grants == Release(s.grants, g, s.jobs[i].id, Success(o))
    ensures Charge(w, r) <= Charge(w, s)
  {
    var key := s.certs[s.jobs[i].id];
    ChargeByRows(w, s);
    ChargeByRows(w, r);
    StampWidth(s.clock);
    StampWidth(r.clock);
    ReleasedGrantsLen(w, s.grants, g, s.jobs[i].id, Success(o));
    SettledJobCharge(s, i, o);
    SettledFactLen(w, s, key, s.jobs[i], o);
    SettledEntryCharge(w, s.entries, r.entries, key, s.historyPruned, 25 + REASON_LEN + 1000);
    assert |r.entries| == |r.entries.Keys| == |s.entries|;
  }

  // ---- The whole update

  lemma StuckAfterSettling(s: Store, i: nat, fin: Job, r: Store, n: Store)
    requires i < |s.jobs| && InFlight(s, s.jobs[i]) && Settled(s, i, fin, r) && Trimmed(r, n)
    requires fin.id == s.jobs[i].id && IsTerminal(fin.status)
    ensures StuckBytes(n) <= OutputBytes(s)
  {
    var bytes := (j: Job) => JobBytes(j);
    forall m | 0 <= m < |s.jobs|
      ensures StuckJob(n)(n.jobs[m]) <= bytes(s.jobs[m])
    {
      assert RowTrimmed(r.jobs[m], n.jobs[m]);
      if m == i {
        var key := s.certs[fin.id];
        assert EntryTrimmed(r.entries[key], n.entries[key]);
        assert n.entries[key].record.Selected().Some?;
      }
    }
    SumSeqBelow(s.jobs, bytes, n.jobs, StuckJob(n));
    assert n.entries.Keys == s.entries.Keys;
    forall k | k in s.entries
      ensures StuckEntry(n)(k) <= AtEntry(s.entries, (e: Entry) => RetainedBytes(e.output))(k)
    {
      assert EntryTrimmed(r.entries[k], n.entries[k]);
    }
    SumBelow(s.entries.Keys, AtEntry(s.entries, (e: Entry) => RetainedBytes(e.output)), StuckEntry(n));
  }

  lemma PreparesAfterSettling(w: Widths, s: Store, n: Store)
    requires Sound(n) && UniqueIds(n.jobs) && Tombstones(n) && StuckBytes(n) <= OUTPUT_BYTES
    requires n.clock + |n.entries| <= MAX_U64
    requires WithinCounts(n, s) && Charge(w, n) <= Charge(w, s) <= STATE_BYTES
    ensures Prepare(n, s).Ok? && Admissible(w, Prepare(n, s).value, s)
    ensures Charge(w, Prepare(n, s).value) <= Charge(w, s)
  {
    EvictsWithinBudget(n);
    EvictionKeeps(w, n, Evict(n).value);
    ChargeBoundsEncoding(w, Evict(n).value);
  }

  lemma EvictsWithinBudget(n: Store)
    requires Sound(n) && UniqueIds(n.jobs) && StuckBytes(n) <= OUTPUT_BYTES && n.clock + |n.entries| <= MAX_U64
    ensures Evict(n).Ok?
  {
    CandidatesAreEntries(n);
    EvictionSucceedsIff(n, Candidates(n));
  }

  lemma CandidatesAreEntries(n: Store)
    ensures |Candidates(n)| <= |n.entries| && ListsCandidates(n, Candidates(n))
  {
    SubsetCounts(CandidateKeys(n), n.entries.Keys);
  }

  /** Room for the steps of the clock that one settlement and its evictions may take. */
  predicate ClockRoom(s: Store) {
    s.clock + |s.entries| < MAX_U64
  }

  lemma FinishStages(s: Store, i: nat, o: Outcome, g: Grant) returns (e: Store, r: Store)
    requires GoodStore(s) && s.clock < MAX_U64 && i < |s.jobs| && InFlight(s, s.jobs[i])
    ensures FinishEdit(s, g, s.jobs[i], o) == Ok(e) && GoodEdit(s, e)
    ensures RefreshOwned(e, s) == Ok(r) && Settled(s, i, Finished(s.jobs[i], o), r)
    ensures r.grants == e.grants == Release(s.grants, g, s.jobs[i].id, Success(o))
    ensures Sound(r) && UniqueIds(r.jobs) && Certified(r)
  {
    FinishEditShape(s, i, o, g);
    e := FinishEdit(s, g, s.jobs[i], o).value;
    FinishIsGood(s, e, i);
    FinishPublishes(s, i, o, g, e);
    r := RefreshOwned(e, s).value;
    PublishKeeps(e, s, r);
  }

  lemma SettledCounts(s: Store, i: nat, fin: Job, o: Outcome, g: Grant, r: Store, n: Store)
    requires i < |s.jobs| && InFlight(s, s.jobs[i]) && Settled(s, i, fin, r) && Trimmed(r, n)
    requires r.grants == Release(s.grants, g, s.jobs[i].id, Success(o))
    ensures WithinCounts(n, s) && (ClockRoom(s) ==> n.clock + |n.entries| <= MAX_U64)
  {
    ReleasedGrantsLen(Widths(_ => 0, _ => 0, _ => 0, _ => 0), s.grants, g, s.jobs[i].id, Success(o));
    assert r.entries.Keys == s.entries.Keys;
    assert |n.entries| == |n.entries.Keys| == |s.entries|;
  }

  lemma SettledCharge(w: Widths, s: Store, i: nat, o: Outcome, g: Grant, r: Store, n: Store)
    requires Plausible(w) && Plain(o) && SoundEntries(s.clock, s.entries) && s.clock < MAX_U64
    requires i < |s.jobs| && InFlight(s, s.jobs[i]) && s.jobs[i].stdout == s.jobs[i].stderr == []
    requires Settled(s, i, Finished(s.jobs[i], o), r) && r.grants == Release(s.grants, g, s.jobs[i].id, Success(o))
    requires n == NormalizeOutput(r)
    ensures Charge(w, n) <= Charge(w, s)
  {
    SettlingLowersCharge(w, s, i, o, g, r);
    NormalizeNeverRaisesCharge(w, r);
  }

  lemma SettledAndNormalized(w: Widths, s: Store, i: nat, o: Outcome, g: Grant, r: Store, n: Store)
    requires Plausible(w) && Plain(o) && GoodStore(s) && s.clock < MAX_U64
    requires i < |s.jobs| && InFlight(s, s.jobs[i]) && s.jobs[i].stdout == s.jobs[i].stderr == []
    requires Settled(s, i, Finished(s.jobs[i], o), r) && r.grants == Release(s.grants, g, s.jobs[i].id, Success(o))
    requires Sound(r) && UniqueIds(r.jobs) && Certified(r) && n == NormalizeOutput(r)
    ensures Sound(n) && UniqueIds(n.jobs) && Tombstones(n)
    ensures StuckBytes(n) <= OUTPUT_BYTES && WithinCounts(n, s)
    ensures ClockRoom(s) ==> n.clock + |n.entries| <= MAX_U64
    ensures Charge(w, n) <= Charge(w, s)
  {
    SettledCharge(w, s, i, o, g, r, n);
    NormalizeKeeps(r, n);
    StuckAfterSettling(s, i, Finished(s.jobs[i], o), r, n);
    SettledCounts(s, i, Finished(s.jobs[i], o), o, g, r, n);
  }

  lemma CommitFromStages(w: Widths, e: Store, s: Store, r: Store, n: Store, t: Store)
    requires RefreshOwned(e, s) == Ok(r) && n == NormalizeOutput(r) && Prepare(n, s) == Ok(t) && Admissible(w, t, s)
    ensures Commit(w, e, s) == Ok(t)
  {
  }

  /** Once a run is admitted and the state is within its charge, saving the run's end is never
      refused: not for its output, not for its reason text, not for anything evicted on the way. */
  lemma SettlementIsAdmissible(w: Widths, s: Store, i: nat, o: Outcome, g: Grant)
    requires Plausible(w) && Plain(o) && GoodStore(s) && Charge(w, s) <= STATE_BYTES && ClockRoom(s)
    requires i < |s.jobs| && InFlight(s, s.jobs[i]) && s.jobs[i].stdout == s.jobs[i].stderr == []
    ensures FinishEdit(s, g, s.jobs[i], o).Ok?
    ensures var c := Commit(w, FinishEdit(s, g, s.jobs[i], o).value, s);
      c.Ok? && Charge(w, c.value) <= Charge(w, s)
  {
    var e, r := FinishStages(s, i, o, g);
    var n := NormalizeOutput(r);
    SettledAndNormalized(w, s, i, o, g, r, n);
    PreparesAfterSettling(w, s, n);
    CommitFromStages(w, e, s, r, n, Prepare(n, s).value);
  }

  // ---- Exactly when the end of a run is saved

  /** The store at the end of a run, before anything is evicted. */
  ghost function EndOf(s: Store, i: nat, o: Outcome, g: Grant): Store
    requires GoodStore(s) && s.clock < MAX_U64 && i < |s.jobs| && InFlight(s, s.jobs[i])
  {
    FinishEditShape(s, i, o, g);
    var e := FinishEdit(s, g, s.jobs[i], o).value;
    FinishPublishes(s, i, o, g, e);
    NormalizeOutput(RefreshOwned(e, s).value)
  }

  ghost function AfterEviction(n: Store): Store {
    if Evict(n).Ok? then Evict(n).value else n
  }

  /** The change counter has a step for the fact and one for each eviction. */
  ghost predicate CounterFits(s: Store, i: nat, o: Outcome, g: Grant)
    requires GoodStore(s) && i < |s.jobs| && InFlight(s, s.jobs[i])
  {
    s.clock < MAX_U64 && var n := EndOf(s, i, o, g); n.clock + Rounds(n, Candidates(n)) <= MAX_U64
  }

  ghost predicate TextFits(w: Widths, s: Store, t: Store) {
    EncodedLen(w, t) <= STATE_BYTES && (EncodedLen(w, s) <= STATE_BYTES || Charge(w, t) <= STATE_BYTES)
  }

  /** The change counter has its steps left, the text to save is within the limit, and so was the text
      saved before, unless the charge is within the limit anyway. */
  ghost predicate EndFits(w: Widths, s: Store, i: nat, o: Outcome, g: Grant)
    requires GoodStore(s) && i < |s.jobs| && InFlight(s, s.jobs[i])
  {
    && s.clock < MAX_U64
    && var n := EndOf(s, i, o, g);
       n.clock + Rounds(n, Candidates(n)) <= MAX_U64 && TextFits(w, s, AfterEviction(n))
  }

  lemma NoStepLeft(s: Store, i: nat, o: Outcome, g: Grant, e: Store)
    requires GoodStore(s) && i < |s.jobs| && InFlight(s, s.jobs[i]) && s.clock == MAX_U64
    requires FinishEdit(s, g, s.jobs[i], o) == Ok(e)
    ensures RefreshOwned(e, s).Err?
  {
    var fin := Finished(s.jobs[i], o);
    FinishEditShape(s, i, o, g);
    OnlyRowChanged(s, i, fin);
    RefreshOfOne(e, s, fin);
    NothingPublished(s, i, o, e);
  }

  lemma NothingPublished(s: Store, i: nat, o: Outcome, e: Store)
    requires i < |s.jobs| && InFlight(s, s.jobs[i]) && s.clock == MAX_U64
    requires e == s.(grants := e.grants, jobs := e.jobs)
    ensures PublishJob(e, s.jobs, Finished(s.jobs[i], o)).Err?
  {
  }

  lemma EvictsIff(n: Store)
    requires Sound(n) && UniqueIds(n.jobs) && StuckBytes(n) <= OUTPUT_BYTES
    ensures Evict(n).Ok? <==> n.clock + Rounds(n, Candidates(n)) <= MAX_U64
  {
    CandidatesAreEntries(n);
    EvictionSucceedsIff(n, Candidates(n));
  }

  lemma AdmissibleIff(w: Widths, t: Store, s: Store)
    requires Charge(w, t) <= Charge(w, s)
    ensures Admissible(w, t, s) <==> TextFits(w, s, t)
  {
  }

  /** The guards left for a store that no longer raises the charge. */
  lemma CommitIff(w: Widths, e: Store, s: Store, r: Store, n: Store)
    requires RefreshOwned(e, s) == Ok(r) && n == NormalizeOutput(r)
    requires Sound(n) && UniqueIds(n.jobs) && Tombstones(n) && StuckBytes(n) <= OUTPUT_BYTES && WithinCounts(n, s)
    requires Charge(w, n) <= Charge(w, s)
    ensures var t := AfterEviction(n);
      Commit(w, e, s).Ok? <==> n.clock + Rounds(n, Candidates(n)) <= MAX_U64 && TextFits(w, s, t)
  {
    EvictsIff(n);
    if Evict(n).Ok? {
      var t := Evict(n).value;
      EvictionKeeps(w, n, t);
      AdmissibleIff(w, t, s);
    }
  }

  /** Saving the end of an admitted run is turned down exactly when it does not fit, whatever the charge. */
  lemma SettlementCommitsIff(w: Widths, s: Store, i: nat, o: Outcome, g: Grant)
    requires Plausible(w) && Plain(o) && GoodStore(s)
    requires i < |s.jobs| && InFlight(s, s.jobs[i]) && s.jobs[i].stdout == s.jobs[i].stderr == []
    ensures FinishEdit(s, g, s.jobs[i], o).Ok?
    ensures Commit(w, FinishEdit(s, g, s.jobs[i], o).value, s).Ok? <==> EndFits(w, s, i, o, g)
  {
    FinishEditShape(s, i, o, g);
    var e := FinishEdit(s, g, s.jobs[i], o).value;
    if s.clock == MAX_U64 {
      NoStepLeft(s, i, o, g, e);
    } else {
      SettlementFitsIff(w, s, i, o, g, e);
    }
  }

  lemma EndIs(s: Store, i: nat, o: Outcome, g: Grant, e: Store, r: Store)
    requires GoodStore(s) && s.clock < MAX_U64 && i < |s.jobs| && InFlight(s, s.jobs[i])
    requires FinishEdit(s, g, s.jobs[i], o) == Ok(e) && RefreshOwned(e, s) == Ok(r)
    ensures EndOf(s, i, o, g) == NormalizeOutput(r)
  {
  }

  lemma EndIsReady(w: Widths, s: Store, i: nat, o: Outcome, g: Grant, e: Store) returns (r: Store)
    requires Plausible(w) && Plain(o) && GoodStore(s) && s.clock < MAX_U64
    requires i < |s.jobs| && InFlight(s, s.jobs[i]) && s.jobs[i].stdout == s.jobs[i].stderr == []
    requires FinishEdit(s, g, s.jobs[i], o) == Ok(e)
    ensures RefreshOwned(e, s) == Ok(r)
    ensures var n := EndOf(s, i, o, g);
      && n == NormalizeOutput(r) && Sound(n) && UniqueIds(n.jobs) && Tombstones(n)
      && StuckBytes(n) <= OUTPUT_BYTES && WithinCounts(n, s) && Charge(w, n) <= Charge(w, s)
  {
    var e';
    e', r := FinishStages(s, i, o, g);
    EndIs(s, i, o, g, e, r);
    SettledAndNormalized(w, s, i, o, g, r, EndOf(s, i, o, g));
  }

  lemma SettlementFitsIff(w: Widths, s: Store, i: nat, o: Outcome, g: Grant, e: Store)
    requires Plausible(w) && Plain(o) && GoodStore(s) && s.clock < MAX_U64
    requires i < |s.jobs| && InFlight(s, s.jobs[i]) && s.jobs[i].stdout == s.jobs[i].stderr == []
    requires FinishEdit(s, g, s.jobs[i], o) == Ok(e)
    ensures Commit(w, e, s).Ok? <==> EndFits(w, s, i, o, g)
  {
    var r := EndIsReady(w, s, i, o, g, e);
    CommitIff(w, e, s, r, EndOf(s, i, o, g));
  }

  /** Within the charge the length of the text never stands in the way. */
  lemma OnlyTheCounter(w: Widths, s: Store, i: nat, o: Outcome, g: Grant)
    requires Plausible(w) && Plain(o) && GoodStore(s) && Charge(w, s) <= STATE_BYTES
    requires i < |s.jobs| && InFlight(s, s.jobs[i]) && s.jobs[i].stdout == s.jobs[i].stderr == []
    ensures EndFits(w, s, i, o, g) <==> CounterFits(s, i, o, g)
  {
    if CounterFits(s, i, o, g) {
      EndWithinCharge(w, s, i, o, g);
    }
  }

  lemma EndWithinCharge(w: Widths, s: Store, i: nat, o: Outcome, g: Grant)
    requires Plausible(w) && Plain(o) && GoodStore(s)
    requires i < |s.jobs| && InFlight(s, s.jobs[i]) && s.jobs[i].stdout == s.jobs[i].stderr == []
    requires CounterFits(s, i, o, g) && Charge(w, s) <= STATE_BYTES
    ensures TextFits(w, s, AfterEviction(EndOf(s, i, o, g)))
  {
    FinishEditShape(s, i, o, g);
    var r := EndIsReady(w, s, i, o, g, FinishEdit(s, g, s.jobs[i], o).value);
    EvictedWithinCharge(w, EndOf(s, i, o, g));
  }

  lemma EvictedWithinCharge(w: Widths, n: Store)
    requires Sound(n) && UniqueIds(n.jobs) && Tombstones(n) && StuckBytes(n) <= OUTPUT_BYTES
    requires n.clock + Rounds(n, Candidates(n)) <= MAX_U64
    ensures var t := AfterEviction(n); EncodedLen(w, t) <= Charge(w, t) <= Charge(w, n)
  {
    EvictsIff(n);
    EvictionKeeps(w, n, Evict(n).value);
    ChargeBoundsEncoding(w, Evict(n).value);
  }

  // ---- What a saved end says

  /** The fact tells how the run ended and has the digests of what the process printed; without an exit, of what
      the row held. */
  ghost predicate FactTells(f: Fact, run: Job, o: Outcome) {
    && TellsEnd(f.status, o)
    && f.stdout == OutputOf(if o.Exited? then o.stdout else run.stdout)
    && f.stderr == OutputOf(if o.Exited? then o.stderr else run.stderr)
  }

  /** What follows the publication keeps every record, and every row but for its bytes. */
  lemma RecordsSaved(w: Widths, r: Store, n: Store, t: Store)
    requires Sound(r) && UniqueIds(r.jobs) && Certified(r) && r.trust == TrustOf(r.peers)
    requires n == NormalizeOutput(r) && Evict(n) == Ok(t)
    ensures t.entries.Keys == r.entries.Keys && t.name == r.name && t.key == r.key
    ensures forall k :: k in r.entries ==> t.entries[k].record == r.entries[k].record
  {
    NormalizeKeeps(r, n);
    EvictKeeps(w, n, t);
    forall k | k in r.entries ensures t.entries[k].record == r.entries[k].record {
      assert EntryTrimmed(r.entries[k], n.entries[k]);
    }
  }

  lemma CommittedRecord(w: Widths, s: Store, i: nat, o: Outcome, g: Grant, e: Store, t: Store)
    requires GoodStore(s) && i < |s.jobs| && InFlight(s, s.jobs[i]) && s.clock < MAX_U64
    requires FinishEdit(s, g, s.jobs[i], o) == Ok(e) && Commit(w, e, s) == Ok(t)
    ensures var key := s.certs[s.jobs[i].id];
      && key in t.entries && t.entries[key].record == SettledRecord(s, key, Finished(s.jobs[i], o))
  {
    var e', r := FinishStages(s, i, o, g);
    var r', n := CommitStages(w, e, s, t);
    PublishKeeps(e, s, r);
    RecordsSaved(w, r, n, t);
  }

  /** A committed completion leaves the next signed fact of the run, and that fact tells how the process ended. */
  lemma CommittedEndTells(w: Widths, s: Store, i: nat, o: Outcome, g: Grant, e: Store, t: Store)
    requires GoodStore(s) && i < |s.jobs| && InFlight(s, s.jobs[i])
    requires FinishEdit(s, g, s.jobs[i], o) == Ok(e) && Commit(w, e, s) == Ok(t)
    ensures var run, key := s.jobs[i], s.certs[s.jobs[i].id];
      && key in t.entries && t.entries[key].record.runner.Some?
      && var f := t.entries[key].record.runner.value;
         && f.fact.invocation == key && f.fact.role == Runner
         && f.fact.revision == s.entries[key].record.runner.value.fact.revision + 1
         && f.signature == Signed(s.key, Statement(f.fact)) && FactTells(f.fact, run, o)
  {
    if s.clock == MAX_U64 {
      NoStepLeft(s, i, o, g, e);
    }
    CommittedRecord(w, s, i, o, g, e, t);
    FinishTells(s, g, s.jobs[i], o, e);
    FinishEditShape(s, i, o, g);
    IndexOfRow(s.jobs, i);
  }
}
