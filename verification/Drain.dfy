/** All the runs a machine has in flight can be saved one after another, in any order. */
module Drain {
  import opened Types
  import opened History
  import opened Advance
  import opened Encoding
  import opened Storage
  import opened Retention
  import opened Update
  import opened Execution
  import opened Settlement

  // ---- What one settlement leaves of the others

  /** Receipts are added only for invocations already buried or taken off the candidate list. */
  ghost predicate ReceiptsFrom(s: Store, t: Store, buried: set<Invocation>) {
    && t.historyPruned <= s.historyPruned + buried
    && t.certs == s.certs
    && forall id :: id in t.outputPruned && id !in s.outputPruned ==>
        id in s.certs && s.certs[id] in s.historyPruned + buried
  }

  lemma NormalizeJobReceipts(s: Store, i: nat)
    requires i < |s.jobs|
    ensures ReceiptsFrom(s, NormalizeJob(s, i), {})
  {
  }

  lemma {:induction false} NormalizeJobsReceipts(s: Store, i: nat, t: Store)
    requires i <= |s.jobs| && t == NormalizeJobs(s, i)
    ensures ReceiptsFrom(s, t, {})
    decreases |s.jobs| - i
  {
    if i < |s.jobs| {
      NormalizeJobReceipts(s, i);
      NormalizeJobTrims(s, i);
      NormalizeJobsReceipts(NormalizeJob(s, i), i + 1, t);
    }
  }

  lemma RemovalReceipts(s: Store, k: Invocation, t: Store)
    requires k in s.entries && RemovePayload(s, k) == Ok(t)
    ensures ReceiptsFrom(s, t, {k}) && t.clock == s.clock + 1
  {
    RemovalShape(s, k);
  }

  lemma {:induction false} EvictionReceipts(s: Store, keys: seq<Invocation>, t: Store, buried: set<Invocation>)
    requires (forall k :: k in keys ==> k in s.entries && k in buried) && EvictFrom(s, keys) == Ok(t)
    ensures ReceiptsFrom(s, t, buried) && t.clock <= s.clock + |keys|
    decreases |keys|
  {
    if OutputBytes(s) > OUTPUT_BYTES {
      var u := RemovePayload(s, keys[0]).value;
      RemovalReceipts(s, keys[0], u);
      RemovalShape(s, keys[0]);
      EvictionReceipts(u, keys[1..], t, buried);
    }
  }

  /** A run in flight with nothing captured yet. */
  ghost predicate Waiting(s: Store, run: Job) {
    InFlight(s, run) && run.stdout == run.stderr == []
  }

  lemma NotACandidate(s: Store, run: Job)
    requires UniqueIds(s.jobs) && SoundCerts(s.entries, s.certs) && Waiting(s, run)
    ensures s.certs[run.id] !in CandidateKeys(s)
  {
    var at :| 0 <= at < |s.jobs| && s.jobs[at] == run;
    IndexOfRow(s.jobs, at);
  }

  lemma WaitingSurvivesPublishing(s: Store, i: nat, fin: Job, r: Store, run: Job)
    requires SoundCerts(s.entries, s.certs) && i < |s.jobs| && InFlight(s, s.jobs[i]) && Settled(s, i, fin, r)
    requires Waiting(s, run) && run.id != s.jobs[i].id
    ensures Waiting(r, run)
  {
    assert s.certs[run.id] != s.certs[s.jobs[i].id];
    var at :| 0 <= at < |s.jobs| && s.jobs[at] == run;
    assert r.jobs[at] == run;
  }

  lemma WaitingSurvivesTrimming(r: Store, n: Store, run: Job)
    requires Waiting(r, run) && Trimmed(r, n) && ReceiptsFrom(r, n, {})
    ensures Waiting(n, run)
  {
    var at :| 0 <= at < |r.jobs| && r.jobs[at] == run;
    assert RowTrimmed(r.jobs[at], n.jobs[at]) && n.jobs[at] == run;
    assert EntryTrimmed(r.entries[r.certs[run.id]], n.entries[r.certs[run.id]]);
  }

  lemma WaitingSurvivesEviction(n: Store, t: Store, run: Job)
    requires UniqueIds(n.jobs) && SoundCerts(n.entries, n.certs)
    requires Waiting(n, run) && OnlyOutputDropped(n, t) && ReceiptsFrom(n, t, CandidateKeys(n))
    ensures Waiting(t, run)
  {
    NotACandidate(n, run);
    var at :| 0 <= at < |n.jobs| && n.jobs[at] == run;
    assert RowKept(n.jobs[at], t.jobs[at]) && t.jobs[at] == run;
  }

  predicate ClockRoomFor(s: Store, runs: nat) {
    s.clock + runs * (|s.entries| + 1) <= MAX_U64
  }

  ghost predicate Quiet(w: Widths, s: Store) {
    Plausible(w) && GoodStore(s) && Charge(w, s) <= STATE_BYTES
  }

  /** The stores between the edit and the save of one settlement. */
  ghost predicate Stages(s: Store, i: nat, fin: Job, r: Store, n: Store, t: Store)
    requires i < |s.jobs| && InFlight(s, s.jobs[i])
  {
    && Settled(s, i, fin, r)
    && Trimmed(r, n) && ReceiptsFrom(r, n, {})
    && UniqueIds(n.jobs) && SoundCerts(n.entries, n.certs)
    && OnlyOutputDropped(n, t) && ReceiptsFrom(n, t, CandidateKeys(n))
    && t.clock <= n.clock + |n.entries|
  }

  lemma NormalizeStage(r: Store, n: Store)
    requires Sound(r) && UniqueIds(r.jobs) && Certified(r) && n == NormalizeOutput(r)
    ensures Trimmed(r, n) && ReceiptsFrom(r, n, {}) && UniqueIds(n.jobs) && Sound(n) && Tombstones(n)
  {
    NormalizeKeeps(r, n);
    NormalizeJobsReceipts(ForgetPruned(r), 0, n);
  }

  lemma EvictStage(w: Widths, n: Store, t: Store)
    requires Sound(n) && UniqueIds(n.jobs) && Tombstones(n) && Evict(n) == Ok(t)
    ensures OnlyOutputDropped(n, t) && ReceiptsFrom(n, t, CandidateKeys(n)) && t.clock <= n.clock + |n.entries|
  {
    EvictionKeeps(w, n, t);
    CandidatesAreEntries(n);
    EvictionReceipts(n, Candidates(n), t, CandidateKeys(n));
  }

  lemma SettlementStages(w: Widths, s: Store, i: nat, o: Outcome, g: Grant, e: Store, t: Store)
    returns (r: Store, n: Store)
    requires GoodStore(s) && s.clock < MAX_U64 && i < |s.jobs| && Waiting(s, s.jobs[i])
    requires FinishEdit(s, g, s.jobs[i], o) == Ok(e) && Commit(w, e, s) == Ok(t)
    ensures Stages(s, i, Finished(s.jobs[i], o), r, n, t)
  {
    var e', r' := FinishStages(s, i, o, g);
    r, n := CommitStages(w, e, s, t);
    NormalizeStage(r, n);
    EvictStage(w, n, t);
  }

  /** After a settlement every other run still waits, and the clock has room for the rest. */
  lemma StagesKeepOthers(s: Store, i: nat, fin: Job, r: Store, n: Store, t: Store, run: Job)
    requires i < |s.jobs| && InFlight(s, s.jobs[i]) && Stages(s, i, fin, r, n, t)
    requires SoundCerts(s.entries, s.certs) && Waiting(s, run) && run.id != s.jobs[i].id
    ensures Waiting(t, run)
  {
    WaitingSurvivesPublishing(s, i, fin, r, run);
    WaitingSurvivesTrimming(r, n, run);
    WaitingSurvivesEviction(n, t, run);
  }

  lemma StagesClock(s: Store, i: nat, fin: Job, r: Store, n: Store, t: Store)
    requires i < |s.jobs| && InFlight(s, s.jobs[i]) && Stages(s, i, fin, r, n, t)
    ensures t.clock <= s.clock + 1 + |s.entries| && |t.entries| == |s.entries|
  {
    assert r.entries.Keys == s.entries.Keys;
    assert |t.entries| == |t.entries.Keys| && |n.entries| == |n.entries.Keys| && |s.entries| == |s.entries.Keys|;
  }

  // ---- All of them

  datatype End = End(run: Job, outcome: Outcome, grant: Grant)

  ghost function SettleOne(w: Widths, s: Store, end: End): Result<Store> {
    var e :- FinishEdit(s, end.grant, end.run, end.outcome);
    Commit(w, e, s)
  }

  ghost function SettleAll(w: Widths, s: Store, ends: seq<End>): Result<Store>
    decreases |ends|
  {
    if ends == [] then Ok(s) else
    var t :- SettleOne(w, s, ends[0]);
    SettleAll(w, t, ends[1..])
  }

  ghost predicate AllWaiting(s: Store, ends: seq<End>) {
    && (forall m :: 0 <= m < |ends| ==> Waiting(s, ends[m].run) && Plain(ends[m].outcome))
    && (forall m, l :: 0 <= m < l < |ends| ==> ends[m].run.id != ends[l].run.id)
  }

  lemma RoomForOne(s: Store, runs: nat)
    requires runs > 0 && ClockRoomFor(s, runs)
    ensures ClockRoom(s)
  {
    assert runs * (|s.entries| + 1) >= |s.entries| + 1;
  }

  lemma RoomAfterOne(s: Store, t: Store, runs: nat)
    requires runs > 0 && ClockRoomFor(s, runs) && t.clock <= s.clock + 1 + |s.entries| && |t.entries| == |s.entries|
    ensures ClockRoomFor(t, runs - 1)
  {
    assert runs * (|s.entries| + 1) == (runs - 1) * (|s.entries| + 1) + (|s.entries| + 1);
  }

  lemma OneCommits(w: Widths, s: Store, i: nat, o: Outcome, g: Grant) returns (e: Store, t: Store)
    requires Quiet(w, s) && Plain(o) && ClockRoom(s) && i < |s.jobs| && Waiting(s, s.jobs[i])
    ensures FinishEdit(s, g, s.jobs[i], o) == Ok(e) && Commit(w, e, s) == Ok(t) && Quiet(w, t)
  {
    SettlementIsAdmissible(w, s, i, o, g);
    var r;
    e, r := FinishStages(s, i, o, g);
    t := Commit(w, e, s).value;
    CommitKeeps(w, e, s, t);
  }

  lemma OthersWait(s: Store, i: nat, fin: Job, r: Store, n: Store, t: Store, ends: seq<End>)
    requires SoundCerts(s.entries, s.certs) && ends != [] && AllWaiting(s, ends)
    requires i < |s.jobs| && InFlight(s, s.jobs[i]) && Stages(s, i, fin, r, n, t) && s.jobs[i] == ends[0].run
    ensures AllWaiting(t, ends[1..])
  {
    forall m | 0 <= m < |ends[1..]|
      ensures Waiting(t, ends[1..][m].run) && Plain(ends[1..][m].outcome)
    {
      assert ends[1..][m] == ends[m + 1];
      StagesKeepOthers(s, i, fin, r, n, t, ends[m + 1].run);
    }
  }

  lemma OneSettles(w: Widths, s: Store, i: nat, ends: seq<End>) returns (e: Store, t: Store)
    requires Quiet(w, s) && ends != [] && AllWaiting(s, ends) && ClockRoomFor(s, |ends|)
    requires i < |s.jobs| && s.jobs[i] == ends[0].run
    ensures FinishEdit(s, ends[0].grant, ends[0].run, ends[0].outcome) == Ok(e) && Commit(w, e, s) == Ok(t)
    ensures Quiet(w, t) && AllWaiting(t, ends[1..]) && ClockRoomFor(t, |ends| - 1)
  {
    RoomForOne(s, |ends|);
    e, t := OneCommits(w, s, i, ends[0].outcome, ends[0].grant);
    var r, n := SettlementStages(w, s, i, ends[0].outcome, ends[0].grant, e, t);
    var fin := Finished(ends[0].run, ends[0].outcome);
    StagesClock(s, i, fin, r, n, t);
    RoomAfterOne(s, t, |ends|);
    OthersWait(s, i, fin, r, n, t, ends);
  }

  lemma SettleAllStep(w: Widths, s: Store, ends: seq<End>, e: Store, t: Store)
    requires ends != [] && FinishEdit(s, ends[0].grant, ends[0].run, ends[0].outcome) == Ok(e)
    requires Commit(w, e, s) == Ok(t)
    ensures SettleAll(w, s, ends) == SettleAll(w, t, ends[1..])
  {
    assert SettleOne(w, s, ends[0]) == Ok(t);
  }

  lemma FirstSettles(w: Widths, s: Store, ends: seq<End>) returns (t: Store)
    requires Quiet(w, s) && ends != [] && AllWaiting(s, ends) && ClockRoomFor(s, |ends|)
    ensures SettleAll(w, s, ends) == SettleAll(w, t, ends[1..])
    ensures Quiet(w, t) && AllWaiting(t, ends[1..]) && ClockRoomFor(t, |ends[1..]|)
  {
    assert Waiting(s, ends[0].run);
    var i :| 0 <= i < |s.jobs| && s.jobs[i] == ends[0].run;
    var e;
    e, t := OneSettles(w, s, i, ends);
    SettleAllStep(w, s, ends, e, t);
  }

  /** However many runs are in flight, and in whatever order they end, every end is saved. */
  lemma {:induction false} EveryRunCanSettle(w: Widths, s: Store, ends: seq<End>) returns (t: Store)
    requires Quiet(w, s) && AllWaiting(s, ends) && ClockRoomFor(s, |ends|)
    ensures SettleAll(w, s, ends) == Ok(t) && Quiet(w, t)
    decreases |ends|
  {
    if ends == [] {
      t := s;
    } else {
      var u := FirstSettles(w, s, ends);
      t := EveryRunCanSettle(w, u, ends[1..]);
    }
  }
}
