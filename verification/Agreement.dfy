/** What each edit and each committed update keeps of the agreement between the rows run here and their
    published facts, when some rows may be set apart by a refused completion. */
module Agreement {
  import opened Types
  import opened History
  import opened Advance
  import opened Encoding
  import opened Storage
  import opened Retention
  import opened Update
  import opened Execution
  import opened Settlement
  import opened Edits
  import opened Publication
  import opened Chains
  import opened Network
  import A = Admission

  function RunnerFact(entries: Entries, k: Invocation): Option<SignedFact> {
    if k in entries then entries[k].record.runner else None
  }

  /** The invocation is bound to a row of this machine past queueing. */
  predicate BelongsHere(s: Store, k: Invocation) {
    k.id in s.certs && s.certs[k.id] == k && A.HasRun(s, k.id)
  }

  ghost predicate FactsBelong(s: Store) {
    forall k: Invocation :: k.body == s.name && RunnerFact(s.entries, k).Some? ==> BelongsHere(s, k)
  }

  ghost predicate AgreeBut(s: Store, lost: set<string>) {
    forall i :: 0 <= i < |s.jobs| && s.jobs[i].id !in lost ==> Agrees(s, s.jobs[i])
  }

  /** A row that a refused completion rewrote in memory: its last fact still says that the job runs. */
  predicate Apart(s: Store, id: string) {
    var i := JobIndex(s.jobs, id);
    && i < |s.jobs| && s.jobs[i].body == s.name && s.jobs[i].status.Uncertain? && JobBytes(s.jobs[i]) == 0
    && id in s.certs && RunnerFact(s.entries, s.certs[id]).Some?
    && RunnerFact(s.entries, s.certs[id]).value.fact.status.Running?
  }

  /** Every job run here and past queueing, but for the lost ones, has a runner fact with its status and its
      output's digests, and each runner fact of this machine is about such a job. */
  ghost predicate PublishedBut(s: Store, lost: set<string>) {
    AgreeBut(s, lost) && FactsBelong(s) && forall id :: id in lost ==> Apart(s, id)
  }

  /** Then the lost rows are exactly the ones that do not agree. */
  lemma ExactlyLostDisagree(s: Store, lost: set<string>)
    requires PublishedBut(s, lost) && UniqueIds(s.jobs)
    ensures forall i :: 0 <= i < |s.jobs| ==> (Agrees(s, s.jobs[i]) <==> s.jobs[i].id !in lost)
  {
    forall i | 0 <= i < |s.jobs| && s.jobs[i].id in lost ensures !Agrees(s, s.jobs[i]) {
      assert Apart(s, s.jobs[i].id);
      IndexOfRow(s.jobs, i);
    }
  }

  // ---- What holds of pruned output and revisions here

  predicate DoneHere(s: Store, k: Invocation) {
    && k.id in s.certs && s.certs[k.id] == k
    && var i := JobIndex(s.jobs, k.id);
       i < |s.jobs| && s.jobs[i].body == s.name && IsTerminal(s.jobs[i].status)
  }

  predicate ReceiptDone(s: Store, id: string) {
    var i := JobIndex(s.jobs, id);
    i < |s.jobs| && (s.jobs[i].body == s.name ==> IsTerminal(s.jobs[i].status))
  }

  ghost predicate RevisionsLow(name: string, entries: Entries) {
    forall k: Invocation :: k.body == name && RunnerFact(entries, k).Some? ==>
      RunnerFact(entries, k).value.fact.revision < entries[k].change
  }

  predicate EmptyOrigin(e: Entry) {
    var origin := e.record.origin;
    origin.Some? ==> origin.value.fact.stdout.bytes == 0 && origin.value.fact.stderr.bytes == 0
  }

  ghost predicate OriginsEmpty(entries: Entries) {
    forall k :: k in entries ==> EmptyOrigin(entries[k])
  }

  /** Only finished jobs of this machine are pruned, and no revision is above its place. */
  ghost predicate Tidy(s: Store) {
    TidyRows(s) && TidyEntries(s)
  }

  ghost predicate TidyRows(s: Store) {
    && (forall k: Invocation :: k in s.historyPruned && k.body == s.name ==> DoneHere(s, k))
    && (forall id :: id in s.outputPruned ==> ReceiptDone(s, id))
  }

  ghost predicate TidyEntries(s: Store) {
    RevisionsLow(s.name, s.entries) && OriginsEmpty(s.entries)
  }

  // ---- What the edits do to runs here

  predicate SaysAsMuch(pruned: set<string>, a: Job, b: Job) {
    b == a || (a.id in pruned && b == a.(stdout := [], stderr := []))
  }

  /** Rows keep their place, ID and machine, and finished ones keep what they say. */
  ghost predicate FinishedStay(s: Store, e: Store) {
    && |s.jobs| <= |e.jobs|
    && forall i :: 0 <= i < |s.jobs| ==>
         && e.jobs[i].id == s.jobs[i].id && e.jobs[i].body == s.jobs[i].body
         && (RunHere(s, s.jobs[i]) && IsTerminal(s.jobs[i].status) ==> SaysAsMuch(e.outputPruned, s.jobs[i], e.jobs[i]))
  }

  ghost predicate OwnFactsStay(s: Store, e: Store) {
    forall k: Invocation :: k.body == s.name ==> RunnerFact(e.entries, k) == RunnerFact(s.entries, k)
  }

  ghost predicate KeepsRuns(s: Store, e: Store) {
    OwnFactsStay(s, e) && FinishedStay(s, e) && A.RowsStay(s, e)
  }

  ghost predicate RunningStay(s: Store, e: Store) {
    && |s.jobs| <= |e.jobs|
    && forall i :: 0 <= i < |s.jobs| ==>
         && e.jobs[i].id == s.jobs[i].id
         && (s.jobs[i].body == s.name && s.jobs[i].status.Running? ==> e.jobs[i] == s.jobs[i])
  }

  // ---- Publishing

  lemma UnchangedRowFits(s: Store, e: Store, j: Job)
    requires GoodStore(s) && Agrees(s, j) && GoodEdit(s, e) && KeepsRuns(s, e) && !JobChanged(s.jobs, j)
    ensures Agrees(e, j)
  {
    var i := JobIndex(s.jobs, j.id);
    assert s.jobs[i] == j && RowCertified(s, s.jobs[i]);
    if RunHere(e, j) {
      var k := s.certs[j.id];
      assert k.body == s.name;
      assert RunnerFact(e.entries, k) == RunnerFact(s.entries, k);
    }
  }

  lemma ChangedRowFits(s: Store, lost: set<string>, e: Store, i: nat, k: Invocation)
    requires SoundCerts(e.entries, e.certs) && PublishedBut(s, lost) && GoodEdit(s, e) && KeepsRuns(s, e)
    requires i < |e.jobs| && e.jobs[i].id !in lost
    requires e.jobs[i].id in e.certs && e.certs[e.jobs[i].id] == k && k.body == s.name
    requires k in e.entries && e.entries[k].record.runner.Some?
    ensures var f := e.entries[k].record.runner.value.fact;
      !IsTerminal(f.status) || FactSaysRow(f, e.outputPruned, e.jobs[i])
  {
    assert RunnerFact(s.entries, k) == RunnerFact(e.entries, k);
    assert BelongsHere(s, k);
    var m := JobIndex(s.jobs, k.id);
    assert e.jobs[m].id == e.jobs[i].id;
    assert Agrees(s, s.jobs[m]);
  }

  /** An edit that keeps the runs here leaves only rows that its publication can make agree. */
  lemma RowFits(s: Store, lost: set<string>, e: Store, r: Store, i: nat)
    requires GoodStore(s) && PublishedBut(s, lost) && GoodEdit(s, e) && KeepsRuns(s, e) && RefreshOwned(e, s) == Ok(r)
    requires i < |e.jobs| && e.jobs[i].id !in lost
    ensures Agrees(r, e.jobs[i])
  {
    var j := e.jobs[i];
    AgreesAfterUpdateIff(e, s, r);
    RefreshAdvances(e, s, r);
    if !JobChanged(s.jobs, j) {
      assert s.jobs[JobIndex(s.jobs, j.id)] == j;
      UnchangedRowFits(s, e, j);
    } else if RunHere(e, j) && j.id in e.certs && e.certs[j.id] in e.entries
              && e.entries[e.certs[j.id]].record.runner.Some? {
      var k := e.certs[j.id];
      assert r.entries[k].record.certificate.invocation == k;
      ChangedRowFits(s, lost, e, i, k);
    }
  }

  /** A publication adds runner facts only for rows run here. */
  ghost predicate GainsRuns(s: Store, t: Store, changed: seq<Job>) {
    forall k :: RunnerFact(t.entries, k).Some? ==>
      || RunnerFact(s.entries, k).Some?
      || exists j :: j in changed && RunHere(t, j) && j.id in t.certs && t.certs[j.id] == k
  }

  lemma CertifyGains(s: Store, previous: seq<Job>, j: Job, t: Store)
    requires Certify(s, previous, j) == Ok(t)
    ensures forall k :: RunnerFact(t.entries, k).Some? ==> RunnerFact(s.entries, k).Some?
  {
  }

  lemma WriteGains(s: Store, j: Job, role: Role, digests: (OutputRef, OutputRef), t: Store)
    requires j.id in s.certs && s.certs[j.id] in s.entries && WriteFact(s, j, role, digests) == Ok(t)
    requires OwnRole(s.name, j) == Some(role)
    ensures forall k :: RunnerFact(t.entries, k).Some? ==>
      RunnerFact(s.entries, k).Some? || (RunHere(t, j) && t.certs[j.id] == k)
    ensures t.certs == s.certs
  {
  }

  lemma PublishJobGains(s: Store, previous: seq<Job>, j: Job, t: Store)
    requires PublishJob(s, previous, j) == Ok(t)
    ensures GainsRuns(s, t, [j])
  {
    if Ours(s, j) {
      var u := PublishStages(s, previous, j, t);
      CertifyGains(s, previous, j, u);
      if t != u {
        PublishWrites(s, previous, j, u, t);
        var role := OwnRole(u.name, j).value;
        WriteGains(u, j, role, DigestsFor(u, j, role, FactIn(u.entries[u.certs[j.id]].record, role)).value, t);
        assert j in [j];
      }
    }
  }

  lemma {:induction false} PublishJobsGain(s: Store, previous: seq<Job>, changed: seq<Job>, t: Store)
    requires Sound(s) && FreshJobs(s, changed) && PublishJobs(s, previous, changed) == Ok(t)
    ensures GainsRuns(s, t, changed)
    decreases |changed|
  {
    if changed != [] {
      var j, rest := changed[0], changed[1..];
      var u := PublishStep(s, previous, changed);
      PublishJobGains(s, previous, j, u);
      PublishJobsGain(u, previous, rest, t);
      PublishJobsAdvance(u, previous, rest);
      GainsChain(s, u, t, changed);
    }
  }

  lemma GainsChain(s: Store, u: Store, t: Store, changed: seq<Job>)
    requires changed != [] && GainsRuns(s, u, changed[..1]) && GainsRuns(u, t, changed[1..])
    requires t.name == u.name && forall id :: id in u.certs ==> id in t.certs && t.certs[id] == u.certs[id]
    ensures GainsRuns(s, t, changed)
  {
    assert forall j :: j in changed[..1] || j in changed[1..] ==> j in changed;
  }

  lemma RefreshBelongs(s: Store, e: Store, r: Store)
    requires FactsBelong(s) && GoodEdit(s, e) && KeepsRuns(s, e) && RefreshOwned(e, s) == Ok(r)
    ensures FactsBelong(r)
  {
    var changed := ChangedJobs(e.jobs, s.jobs);
    ChangedAreFresh(e, s, changed);
    RefreshAdvances(e, s, r);
    PublishJobsGain(WithTrust(e), s.jobs, changed, r);
    forall k: Invocation | k.body == r.name && RunnerFact(r.entries, k).Some? ensures BelongsHere(r, k) {
      if RunnerFact(WithTrust(e).entries, k).Some? {
        assert RunnerFact(s.entries, k).Some?;
        assert BelongsHere(s, k);
      } else {
        var j :| j in changed && RunHere(r, j) && j.id in r.certs && r.certs[j.id] == k;
        RowHasRun(r, j);
      }
    }
  }

  lemma RowHasRun(s: Store, j: Job)
    requires UniqueIds(s.jobs) && j in s.jobs && RunHere(s, j)
    ensures A.HasRun(s, j.id)
  {
    var i :| 0 <= i < |s.jobs| && s.jobs[i] == j;
    IndexOfRow(s.jobs, i);
  }

  // ---- Normalizing and evicting

  /** Dropping replicas and adding receipts changes no fact and no row. */
  lemma SameFactsAgree(s: Store, lost: set<string>, t: Store)
    requires AgreeBut(s, lost) && t.jobs == s.jobs && t.name == s.name && t.certs == s.certs
    requires s.outputPruned <= t.outputPruned
    requires forall k :: RunnerFact(t.entries, k) == RunnerFact(s.entries, k)
    ensures AgreeBut(t, lost)
  {
    forall i | 0 <= i < |t.jobs| && t.jobs[i].id !in lost ensures Agrees(t, t.jobs[i]) {
      assert Agrees(s, s.jobs[i]);
      if RunHere(t, t.jobs[i]) {
        assert RunnerFact(t.entries, t.certs[t.jobs[i].id]) == RunnerFact(s.entries, s.certs[t.jobs[i].id]);
      }
    }
  }

  /** A cleared row agrees with its fact if it has a receipt, or was empty before. */
  lemma ClearedRowAgrees(s: Store, lost: set<string>, i: nat, pruned: set<string>)
    requires AgreeBut(s, lost) && i < |s.jobs| && s.outputPruned <= pruned
    requires RunHere(s, s.jobs[i]) && s.jobs[i].id !in lost ==> s.jobs[i].id in pruned || JobBytes(s.jobs[i]) == 0
    ensures AgreeBut(s.(jobs := s.jobs[i := s.jobs[i].(stdout := [], stderr := [])], outputPruned := pruned), lost)
  {
    var t := s.(jobs := s.jobs[i := s.jobs[i].(stdout := [], stderr := [])], outputPruned := pruned);
    forall m | 0 <= m < |t.jobs| && t.jobs[m].id !in lost ensures Agrees(t, t.jobs[m]) {
      assert Agrees(s, s.jobs[m]);
      if m == i && JobBytes(s.jobs[i]) == 0 {
        assert OutputOfJob(t.jobs[m]) == OutputOfJob(s.jobs[m]);
      }
    }
  }

  lemma NormalizeJobAgrees(s: Store, lost: set<string>, i: nat)
    requires AgreeBut(s, lost) && i < |s.jobs|
    ensures AgreeBut(NormalizeJob(s, i), lost)
  {
    var j := s.jobs[i];
    if j.id in s.certs && BoundTo(s, j, s.certs[j.id]) {
      var t := NormalizeJob(s, i);
      assert j.id !in lost ==> Agrees(s, j);
      if s.certs[j.id] in s.historyPruned {
        ClearedRowAgrees(s, lost, i, t.outputPruned);
      } else {
        SameFactsAgree(s, lost, t);
      }
    }
  }

  lemma {:induction false} NormalizeJobsAgree(s: Store, lost: set<string>, i: nat)
    requires AgreeBut(s, lost) && i <= |s.jobs|
    ensures AgreeBut(NormalizeJobs(s, i), lost)
    decreases |s.jobs| - i
  {
    if i < |s.jobs| {
      NormalizeJobAgrees(s, lost, i);
      NormalizeJobTrims(s, i);
      NormalizeJobsAgree(NormalizeJob(s, i), lost, i + 1);
    }
  }

  lemma NormalizeAgrees(s: Store, lost: set<string>)
    requires AgreeBut(s, lost)
    ensures AgreeBut(NormalizeOutput(s), lost)
  {
    SameFactsAgree(s, lost, ForgetPruned(s));
    NormalizeJobsAgree(ForgetPruned(s), lost, 0);
  }

  lemma RemovalAgrees(s: Store, lost: set<string>, k: Invocation)
    requires AgreeBut(s, lost) && k in s.entries && RemovePayload(s, k).Ok?
    ensures AgreeBut(RemovePayload(s, k).value, lost)
  {
    var t, i := RemovePayload(s, k).value, LocalIndex(s, k);
    RemovalShape(s, k);
    var u := s;
    if i < |s.jobs| {
      ClearedRowAgrees(s, lost, i, t.outputPruned);
      u := s.(jobs := t.jobs, outputPruned := t.outputPruned);
    }
    SameFactsAgree(u, lost, t);
  }

  lemma SameFactsBelong(s: Store, t: Store)
    requires FactsBelong(s) && t.certs == s.certs && A.RowsStay(s, t)
    requires forall k :: RunnerFact(t.entries, k) == RunnerFact(s.entries, k)
    ensures FactsBelong(t)
  {
    forall k: Invocation | k.body == t.name && RunnerFact(t.entries, k).Some? ensures BelongsHere(t, k) {
      assert BelongsHere(s, k);
    }
  }

  /** Trimmed rows keep their place, identity and status, and facts stay. */
  ghost predicate Thinned(s: Store, t: Store) {
    && t.name == s.name && t.certs == s.certs && |t.jobs| == |s.jobs|
    && (forall i :: 0 <= i < |s.jobs| ==> RowTrimmed(s.jobs[i], t.jobs[i]))
    && (forall k :: RunnerFact(t.entries, k) == RunnerFact(s.entries, k))
  }

  lemma TrimmedThins(r: Store, n: Store)
    requires Trimmed(r, n)
    ensures Thinned(r, n)
  {
    forall k | true ensures RunnerFact(n.entries, k) == RunnerFact(r.entries, k) {
      assert k in r.entries ==> EntryTrimmed(r.entries[k], n.entries[k]);
    }
  }

  lemma DroppedThins(n: Store, t: Store)
    requires OnlyOutputDropped(n, t)
    ensures Thinned(n, t)
  {
    forall i | 0 <= i < |n.jobs| ensures RowTrimmed(n.jobs[i], t.jobs[i]) {
      assert RowKept(n.jobs[i], t.jobs[i]);
    }
  }

  lemma ThinnedIndex(s: Store, t: Store, id: string)
    requires Thinned(s, t)
    ensures JobIndex(t.jobs, id) == JobIndex(s.jobs, id)
  {
    forall i | 0 <= i < |s.jobs| ensures t.jobs[i].id == s.jobs[i].id {
      assert RowTrimmed(s.jobs[i], t.jobs[i]);
    }
    SameIds(s.jobs, t.jobs, id);
  }

  lemma ThinnedBelongs(s: Store, t: Store)
    requires FactsBelong(s) && Thinned(s, t)
    ensures FactsBelong(t)
  {
    forall id | A.HasRun(s, id) ensures A.HasRun(t, id) {
      ThinnedIndex(s, t, id);
      assert RowTrimmed(s.jobs[JobIndex(s.jobs, id)], t.jobs[JobIndex(s.jobs, id)]);
    }
    SameFactsBelong(s, t);
  }

  lemma ThinnedApart(s: Store, t: Store, id: string)
    requires Apart(s, id) && Thinned(s, t)
    ensures Apart(t, id)
  {
    ThinnedIndex(s, t, id);
    var i := JobIndex(s.jobs, id);
    assert RowTrimmed(s.jobs[i], t.jobs[i]);
  }

  lemma ThinnedDone(s: Store, t: Store)
    requires Thinned(s, t)
    ensures forall k :: DoneHere(s, k) ==> DoneHere(t, k)
    ensures forall id :: ReceiptDone(s, id) ==> ReceiptDone(t, id)
  {
    forall id | JobIndex(s.jobs, id) < |s.jobs|
      ensures JobIndex(t.jobs, id) == JobIndex(s.jobs, id)
      ensures t.jobs[JobIndex(s.jobs, id)].body == s.jobs[JobIndex(s.jobs, id)].body
      ensures t.jobs[JobIndex(s.jobs, id)].status == s.jobs[JobIndex(s.jobs, id)].status
    {
      ThinnedIndex(s, t, id);
      assert RowTrimmed(s.jobs[JobIndex(s.jobs, id)], t.jobs[JobIndex(s.jobs, id)]);
    }
  }

  lemma ThinnedRowsTidy(s: Store, t: Store)
    requires TidyRows(s) && Thinned(s, t)
    requires forall k: Invocation :: k in t.historyPruned && k !in s.historyPruned && k.body == s.name ==>
      DoneHere(s, k)
    requires forall id :: id in t.outputPruned && id !in s.outputPruned ==> ReceiptDone(s, id)
    ensures TidyRows(t)
  {
    ThinnedDone(s, t);
    assert forall k: Invocation :: k in t.historyPruned && k.body == t.name ==> DoneHere(s, k);
    assert forall id :: id in t.outputPruned ==> ReceiptDone(s, id);
  }

  lemma SameRecordsTidy(s: Store, t: Store)
    requires TidyEntries(s) && t.name == s.name
    requires forall k :: k in t.entries ==>
      k in s.entries && t.entries[k].record == s.entries[k].record && s.entries[k].change <= t.entries[k].change
    ensures TidyEntries(t)
  {
  }

  /** A receipt for a row bound to a pruned invocation is for a finished row. */
  lemma NormalizeJobTidy(s: Store, i: nat)
    requires Tidy(s) && UniqueIds(s.jobs) && Sound(s) && i < |s.jobs|
    ensures Tidy(NormalizeJob(s, i))
  {
    var j, t := s.jobs[i], NormalizeJob(s, i);
    NormalizeJobTrims(s, i);
    TrimmedThins(s, t);
    IndexOfRow(s.jobs, i);
    NewReceiptDone(s, i);
    ThinnedRowsTidy(s, t);
    TrimmedRecordsTidy(s, t);
  }

  lemma TrimmedRecordsTidy(s: Store, t: Store)
    requires TidyEntries(s) && Trimmed(s, t)
    ensures TidyEntries(t)
  {
    forall k | k in t.entries ensures k in s.entries && EntryTrimmed(s.entries[k], t.entries[k]) {
    }
    SameRecordsTidy(s, t);
  }

  lemma NewReceiptDone(s: Store, i: nat)
    requires TidyRows(s) && Sound(s) && i < |s.jobs| && JobIndex(s.jobs, s.jobs[i].id) == i
    ensures NormalizeJob(s, i).historyPruned == s.historyPruned
    ensures forall id :: id in NormalizeJob(s, i).outputPruned && id !in s.outputPruned ==> ReceiptDone(s, id)
  {
    var j := s.jobs[i];
    if j.id in s.certs && s.certs[j.id] in s.historyPruned && BoundTo(s, j, s.certs[j.id]) && j.body == s.name {
      assert DoneHere(s, s.certs[j.id]);
    }
  }

  lemma {:induction false} NormalizeJobsTidy(s: Store, i: nat)
    requires Tidy(s) && UniqueIds(s.jobs) && Sound(s) && i <= |s.jobs|
    ensures Tidy(NormalizeJobs(s, i))
    decreases |s.jobs| - i
  {
    if i < |s.jobs| {
      NormalizeJobTidy(s, i);
      NormalizeJobTrims(s, i);
      TrimmedIds(s, NormalizeJob(s, i));
      TrimmedAdvances(s, NormalizeJob(s, i));
      NormalizeJobsTidy(NormalizeJob(s, i), i + 1);
    }
  }

  lemma NormalizeTidy(s: Store)
    requires Tidy(s) && UniqueIds(s.jobs) && Sound(s)
    ensures Tidy(NormalizeOutput(s))
  {
    var u := ForgetPruned(s);
    ForgetTrims(s);
    TrimmedAdvances(s, u);
    TrimmedThins(s, u);
    ThinnedRowsTidy(s, u);
    TrimmedRecordsTidy(s, u);
    NormalizeJobsTidy(u, 0);
  }

  // ---- Removing payloads

  ghost predicate Straight(s: Store, lost: set<string>) {
    Sound(s) && UniqueIds(s.jobs) && Certified(s) && PublishedBut(s, lost) && Tidy(s)
  }

  /** What may be removed of this machine's own runs is finished. */
  lemma CandidateIsDone(s: Store, lost: set<string>, k: Invocation)
    requires Straight(s, lost) && k in CandidateKeys(s) && k.body == s.name
    ensures DoneHere(s, k)
  {
    var i := LocalIndex(s, k);
    if i < |s.jobs| {
      assert RowCertified(s, s.jobs[i]);
    } else {
      assert Genuine(s.entries[k]) && EmptyOrigin(s.entries[k]);
      assert RunnerFact(s.entries, k).Some?;
      assert BelongsHere(s, k);
      var m := JobIndex(s.jobs, k.id);
      assert s.jobs[m].id in lost ==> Apart(s, s.jobs[m].id);
      assert s.jobs[m].id !in lost ==> Agrees(s, s.jobs[m]);
    }
  }

  lemma RemovalEntriesTidy(s: Store, k: Invocation, t: Store)
    requires Sound(s) && TidyEntries(s) && k in s.entries && RemovePayload(s, k) == Ok(t)
    ensures TidyEntries(t)
  {
    RemovalShape(s, k);
    forall x | x in t.entries
      ensures x in s.entries && t.entries[x].record == s.entries[x].record && s.entries[x].change <= t.entries[x].change
    {
      assert x != k ==> t.entries[x] == s.entries[x];
    }
    SameRecordsTidy(s, t);
  }

  lemma RemovalTidy(s: Store, lost: set<string>, k: Invocation, t: Store)
    requires Straight(s, lost) && k in CandidateKeys(s) && RemovePayload(s, k) == Ok(t)
    ensures Tidy(t)
  {
    RemovalShape(s, k);
    RemovalKeepsRows(s, k);
    DroppedThins(s, t);
    if k.body == s.name {
      CandidateIsDone(s, lost, k);
    }
    ThinnedRowsTidy(s, t);
    RemovalEntriesTidy(s, k, t);
  }

  lemma RemovalStraight(s: Store, lost: set<string>, k: Invocation, t: Store)
    requires Straight(s, lost) && k in CandidateKeys(s) && RemovePayload(s, k) == Ok(t)
    ensures Straight(t, lost)
  {
    RemovalTidy(s, lost, k, t);
    RemovalAdvances(s, k);
    RemovalAgrees(s, lost, k);
    RemovalKeepsRows(s, k);
    DroppedThins(s, t);
    DroppingKeepsCertified(s, t);
    ThinnedBelongs(s, t);
    forall id | id in lost ensures Apart(t, id) {
      ThinnedApart(s, t, id);
    }
    forall i, j | 0 <= i < j < |t.jobs| ensures t.jobs[i].id != t.jobs[j].id {
      assert RowTrimmed(s.jobs[i], t.jobs[i]) && RowTrimmed(s.jobs[j], t.jobs[j]);
    }
  }

  lemma {:induction false} RemovalsStraight(s: Store, lost: set<string>, keys: seq<Invocation>, n: nat, t: Store)
    requires Straight(s, lost) && ListsCandidates(s, keys) && n <= |keys|
    requires (forall k :: k in keys[..n] ==> k in s.entries) && RemoveAll(s, keys[..n]) == Ok(t)
    ensures Straight(t, lost)
    decreases n
  {
    if n == 0 {
      assert keys[..n] == [];
    } else {
      var u := FirstRemoval(s, keys, n, t);
      RemovalStraight(s, lost, keys[0], u);
      ListStep(s, keys, u);
      RemovalsStraight(u, lost, keys[1..], n - 1, t);
    }
  }

  lemma FirstRemoval(s: Store, keys: seq<Invocation>, n: nat, t: Store) returns (u: Store)
    requires ListsCandidates(s, keys) && 0 < n <= |keys|
    requires (forall k :: k in keys[..n] ==> k in s.entries) && RemoveAll(s, keys[..n]) == Ok(t)
    ensures keys[0] in CandidateKeys(s) && keys[0] in s.entries && RemovePayload(s, keys[0]) == Ok(u)
    ensures (forall k :: k in keys[1..][..n - 1] ==> k in u.entries) && RemoveAll(u, keys[1..][..n - 1]) == Ok(t)
  {
    assert keys[..n][0] == keys[0] && keys[0] in keys && keys[..n][1..] == keys[1..][..n - 1];
    u := RemovePayload(s, keys[..n][0]).value;
    RemovalShape(s, keys[0]);
  }

  lemma EvictionStraight(s: Store, lost: set<string>, t: Store)
    requires Straight(s, lost) && Evict(s) == Ok(t)
    ensures Straight(t, lost)
  {
    var keys := AgeList(s);
    var n := EvictionIsMinimal(s, keys);
    assert forall k :: k in keys[..n] ==> k in keys;
    RemovalsStraight(s, lost, keys, n, t);
  }

  lemma PruneStraight(s: Store, lost: set<string>, keep: nat, t: Store)
    requires Straight(s, lost) && Storage.Prune(s, keep) == Ok(t)
    ensures Straight(t, lost)
  {
    var keys := AgeList(s);
    var n := if |keys| > keep then |keys| - keep else 0;
    assert OldestBut(s, keep) == keys[..n];
    RemovalsStraight(s, lost, keys, n, t);
  }

  // ---- Publishing keeps things tidy

  lemma CertifyTidy(s: Store, previous: seq<Job>, j: Job, t: Store)
    requires Sound(s) && FreshJob(s, j) && TidyEntries(s) && Certify(s, previous, j) == Ok(t)
    ensures TidyEntries(t) && t.name == s.name
  {
  }

  lemma WriteTidy(s: Store, j: Job, role: Role, digests: (OutputRef, OutputRef), t: Store)
    requires Sound(s) && TidyEntries(s)
    requires j.id in s.certs && s.certs[j.id] in s.entries && WriteFact(s, j, role, digests) == Ok(t)
    requires role.Origin? ==> digests == (OutputOf([]), OutputOf([]))
    ensures TidyEntries(t)
  {
    var k := s.certs[j.id];
    forall l: Invocation | l.body == t.name && RunnerFact(t.entries, l).Some?
      ensures RunnerFact(t.entries, l).value.fact.revision < t.entries[l].change
    {
      if l == k && RunnerFact(s.entries, l).Some? {
        assert RunnerFact(s.entries, l).value.fact.revision < s.entries[l].change;
      }
    }
  }

  lemma PublishJobTidy(s: Store, previous: seq<Job>, j: Job, t: Store)
    requires Sound(s) && FreshJob(s, j) && TidyEntries(s) && PublishJob(s, previous, j) == Ok(t)
    ensures TidyEntries(t)
  {
    if Ours(s, j) {
      var u := PublishStages(s, previous, j, t);
      CertifyAdvances(s, previous, j, u);
      CertifyTidy(s, previous, j, u);
      if t != u {
        PublishWrites(s, previous, j, u, t);
        var role := OwnRole(u.name, j).value;
        WriteTidy(u, j, role, DigestsFor(u, j, role, FactIn(u.entries[u.certs[j.id]].record, role)).value, t);
      }
    }
  }

  lemma {:induction false} PublishJobsTidy(s: Store, previous: seq<Job>, changed: seq<Job>, t: Store)
    requires Sound(s) && FreshJobs(s, changed) && TidyEntries(s) && PublishJobs(s, previous, changed) == Ok(t)
    ensures TidyEntries(t)
    decreases |changed|
  {
    if changed != [] {
      var u := PublishStep(s, previous, changed);
      PublishJobTidy(s, previous, changed[0], u);
      PublishJobsTidy(u, previous, changed[1..], t);
    }
  }

  lemma RefreshTidy(s: Store, e: Store, r: Store)
    requires Tidy(e) && GoodEdit(s, e) && RefreshOwned(e, s) == Ok(r)
    ensures Tidy(r)
  {
    var changed := ChangedJobs(e.jobs, s.jobs);
    ChangedAreFresh(e, s, changed);
    RefreshAdvances(e, s, r);
    PublishJobsTidy(WithTrust(e), s.jobs, changed, r);
    SameRowsTidy(e, r);
  }

  lemma SameRowsTidy(e: Store, r: Store)
    requires TidyRows(e) && r.jobs == e.jobs && r.name == e.name && CertsKept(e, r)
    requires r.historyPruned == e.historyPruned && r.outputPruned == e.outputPruned
    ensures TidyRows(r)
  {
    assert forall k :: DoneHere(e, k) ==> DoneHere(r, k);
    assert forall id :: ReceiptDone(e, id) ==> ReceiptDone(r, id);
  }

  /** A publication does not look at a row that the edit left alone. */
  lemma UnchangedRowSkipped(m: Store, e: Store, r: Store, i: nat)
    requires GoodEdit(m, e) && RefreshOwned(e, m) == Ok(r) && UniqueIds(m.jobs)
    requires i < |m.jobs| && i < |e.jobs| && e.jobs[i] == m.jobs[i]
    ensures SameRowState(WithTrust(e), r, m.jobs[i])
    ensures r == WithTrust(e).(clock := r.clock, entries := r.entries, certs := r.certs)
  {
    var j := m.jobs[i];
    var changed := ChangedJobs(e.jobs, m.jobs);
    ChangedAreFresh(e, m, changed);
    RefreshAdvances(e, m, r);
    IndexOfRow(m.jobs, i);
    forall x | 0 <= x < |changed| ensures changed[x].id != j.id {
      assert changed[x] in changed;
      SameRowSameId(e.jobs, changed[x], j);
    }
    UntouchedRow(WithTrust(e), m.jobs, changed, r, j);
  }

  /** So a row that was set apart stays apart, whatever else the update does. */
  lemma ApartStays(s: Store, e: Store, r: Store, id: string)
    requires GoodStore(s) && Apart(s, id) && GoodEdit(s, e) && KeepsRuns(s, e) && RefreshOwned(e, s) == Ok(r)
    ensures Apart(r, id)
  {
    var i := JobIndex(s.jobs, id);
    assert RowCertified(s, s.jobs[i]);
    ApartInEdit(s, e, id);
    UnchangedRowSkipped(s, e, r, i);
  }

  lemma ApartInEdit(s: Store, e: Store, id: string)
    requires Apart(s, id) && KeepsRuns(s, e) && CertsKept(s, e) && s.certs[id].body == s.name && e.name == s.name
    ensures var i := JobIndex(s.jobs, id); JobIndex(e.jobs, id) == i && e.jobs[i] == s.jobs[i] && Apart(e, id)
  {
    var i := JobIndex(s.jobs, id);
    assert e.jobs[i] == s.jobs[i];
    A.IndexStays(s.jobs, e.jobs, id);
    assert RunnerFact(e.entries, s.certs[id]) == RunnerFact(s.entries, s.certs[id]);
  }

  lemma RefreshStraight(s: Store, lost: set<string>, e: Store, r: Store)
    requires GoodStore(s) && PublishedBut(s, lost) && GoodEdit(s, e) && KeepsRuns(s, e) && Tidy(e)
    requires RefreshOwned(e, s) == Ok(r)
    ensures Straight(r, lost)
  {
    PublishKeeps(e, s, r);
    RefreshTidy(s, e, r);
    RefreshBelongs(s, e, r);
    forall i | 0 <= i < |r.jobs| && r.jobs[i].id !in lost ensures Agrees(r, r.jobs[i]) {
      RowFits(s, lost, e, r, i);
    }
    forall id | id in lost ensures Apart(r, id) {
      ApartStays(s, e, r, id);
    }
  }

  lemma NormalizeStraight(r: Store, lost: set<string>, n: Store)
    requires Straight(r, lost) && n == NormalizeOutput(r)
    ensures Straight(n, lost)
  {
    NormalizeKeeps(r, n);
    TrimmedThins(r, n);
    NormalizeAgrees(r, lost);
    NormalizeTidy(r);
    ThinnedBelongs(r, n);
    forall id | id in lost ensures Apart(n, id) {
      ThinnedApart(r, n, id);
    }
  }

  /** A committed update publishes every row but the lost ones and keeps those apart, if its edit keeps the
      runs here. */
  lemma CommitPublishes(w: Widths, s: Store, lost: set<string>, e: Store, t: Store)
    requires GoodStore(s) && PublishedBut(s, lost) && GoodEdit(s, e) && KeepsRuns(s, e) && Tidy(e)
    requires Commit(w, e, s) == Ok(t)
    ensures PublishedBut(t, lost) && Tidy(t)
  {
    var r, n := CommitStages(w, e, s, t);
    RefreshStraight(s, lost, e, r);
    NormalizeStraight(r, lost, n);
    EvictionStraight(n, lost, t);
  }

  // ---- Each edit

  /** A learned record says nothing about this machine's runs that its store does not. */
  ghost predicate NothingNew(s: Store, r: Record) {
    var k := r.certificate.invocation;
    k.body == s.name && r.runner.Some? && ValidRecord(s, r) ==>
      var held := RunnerFact(s.entries, k);
      held.Some? && (r.runner.value.fact.revision < held.value.fact.revision || r.runner == held)
  }

  /** That is so whenever nobody else writes with this machine's key. */
  lemma OwnFactsAreKnown(written: Written, s: Store, r: Record)
    requires AllChains(written) && Ahead(written, s) && Carried(written, r)
    ensures NothingNew(s, r)
  {
    var k := r.certificate.invocation;
    if k.body == s.name && r.runner.Some? && ValidRecord(s, r) {
      var x := Slot(k, Runner);
      assert FactIn(r, Runner) == r.runner;
      ValidIsWritten(written, s, r, Runner);
      var i := ChainPlace(x, written(x), r.runner.value);
      assert Owns(s.name, s.key, x) && Held(s.entries, x) == RunnerFact(s.entries, k);
    }
  }

  ghost predicate Honest(s: Store, edit: Edit) {
    edit.Learn? ==> forall i :: 0 <= i < |edit.page.entries| ==> NothingNew(s, edit.page.entries[i].record)
  }

  lemma IngestLeavesOwn(s: Store, p: Published, t: Store)
    requires NothingNew(s, p.record) && Ingest(s, p) == Ok(t)
    ensures OwnFactsStay(s, t)
  {
    var k := p.record.certificate.invocation;
    assert EntryOrNew(s, p.record.certificate).record.runner == RunnerFact(s.entries, k);
  }

  lemma StillNothingNew(s: Store, t: Store, r: Record)
    requires NothingNew(s, r) && OwnFactsStay(s, t) && t.name == s.name && t.key == s.key && t.peers == s.peers
    ensures NothingNew(t, r)
  {
    assert ValidRecord(t, r) ==> ValidRecord(s, r);
  }

  lemma {:induction false} LearningLeavesOwn(s: Store, items: seq<Published>, unknown: bool)
    requires LearnAll(s, items, unknown).Ok? && forall i :: 0 <= i < |items| ==> NothingNew(s, items[i].record)
    ensures OwnFactsStay(s, LearnAll(s, items, unknown).value.0)
    decreases |items|
  {
    if items != [] {
      var rest := items[1..];
      if AuthorsKnown(s, items[0].record.certificate) {
        var u := Ingest(s, items[0]).value;
        IngestFrame(s, items[0]);
        IngestLeavesOwn(s, items[0], u);
        forall i | 0 <= i < |rest| ensures NothingNew(u, rest[i].record) {
          StillNothingNew(s, u, items[i + 1].record);
        }
        LearningLeavesOwn(u, rest, unknown);
      } else {
        forall i | 0 <= i < |rest| ensures NothingNew(s, rest[i].record) {
          assert rest[i] == items[i + 1];
        }
        LearningLeavesOwn(s, rest, true);
      }
    }
  }

  lemma ReplyKeepsRuns(s: Store, peer: string, p: Published, e: Store)
    requires peer != s.name && AcceptRunnerReply(s, peer, p) == Ok(e)
    ensures OwnFactsStay(s, e) && FinishedStay(s, e) && RunningStay(s, e)
  {
    if e != s {
      ReplyShape(s, peer, p);
      IngestFrame(s, p);
      A.ReplyFromPeer(s, peer, p);
      IngestLeavesOwn(s, p, Ingest(s, p).value);
      ReplyRow(s, peer, p, e);
    }
  }

  /** Every row a removal clears has its receipt. */
  ghost predicate Receipted(s: Store, t: Store) {
    && |t.jobs| == |s.jobs| && s.outputPruned <= t.outputPruned
    && forall i :: 0 <= i < |s.jobs| ==>
         || t.jobs[i] == s.jobs[i]
         || (s.jobs[i].id in t.outputPruned && t.jobs[i] == s.jobs[i].(stdout := [], stderr := []))
  }

  lemma {:induction false} RemovalsReceipted(s: Store, keys: seq<Invocation>)
    requires (forall k :: k in keys ==> k in s.entries) && RemoveAll(s, keys).Ok?
    ensures Receipted(s, RemoveAll(s, keys).value)
    decreases |keys|
  {
    if keys != [] {
      var u := RemovePayload(s, keys[0]).value;
      RemovalShape(s, keys[0]);
      RemovalsReceipted(u, keys[1..]);
    }
  }

  lemma DiscardKeepsRuns(s: Store, keep: nat, e: Store)
    requires Storage.Prune(s, keep) == Ok(e)
    ensures OwnFactsStay(s, e) && FinishedStay(s, e) && RunningStay(s, e)
  {
    RemovalsReceipted(s, OldestBut(s, keep));
    PruneDropsOutput(s, keep, e);
  }

  lemma OneRowLeavesRuns(s: Store, e: Store, i: nat)
    requires OneRow(s, e, i)
    requires i < |s.jobs| && e.jobs != s.jobs ==>
      && e.jobs[i].body == s.jobs[i].body
      && (s.jobs[i].body != s.name || !(s.jobs[i].status.Running? || IsTerminal(s.jobs[i].status)))
    ensures e.entries == s.entries && FinishedStay(s, e) && RunningStay(s, e)
  {
  }

  lemma RowEditLeavesRuns(s: Store, edit: Edit, e: Store)
    requires edit.DeliveryFailed? || edit.Refuse?
    requires Fair(s, edit) && Apply(s, edit) == Ok(e)
    ensures e.entries == s.entries && FinishedStay(s, e) && RunningStay(s, e)
  {
    match edit
    case DeliveryFailed(id, x) =>
      DeliveryRow(s, id, x);
      OneRowLeavesRuns(s, e, JobIndex(s.jobs, id));
    case Refuse(id, x) =>
      RefuseRow(s, id, x, e);
      OneRowLeavesRuns(s, e, JobIndex(s.jobs, id));
  }

  lemma EditKeepsRuns(s: Store, edit: Edit, e: Store)
    requires Fair(s, edit) && Honest(s, edit) && Apply(s, edit) == Ok(e)
    requires !edit.Submit? && !edit.Finish? && !edit.Recover?
    ensures KeepsRuns(s, e) && RunningStay(s, e)
  {
    A.OtherStays(s, edit, e);
    match edit
    case Learn(_, asked, page) =>
      LearningLeavesOwn(s, page.entries, !page.reset && asked.unknown);
      A.LearnFrame(s, page.entries, !page.reset && asked.unknown);
    case Reply(peer, p) => ReplyKeepsRuns(s, peer, p, e);
    case Discard(keep) => DiscardKeepsRuns(s, keep, e);
    case _ =>
      if IsControl(edit) {
        ControlShape(s, edit, e);
      } else if !edit.Append? {
        RowEditLeavesRuns(s, edit, e);
      }
  }

  /** The end of a run whose row still says that it runs. */
  lemma FinishKeepsRuns(s: Store, g: Grant, run: Job, o: Outcome, e: Store)
    requires FindJob(s.jobs, run.id) == Some(run) && run.status.Running? && run.body == s.name
    requires FinishEdit(s, g, run, o) == Ok(e)
    ensures KeepsRuns(s, e)
  {
    A.FinishedStays(s, g, run, o, e);
  }

  lemma RecoverKeepsRuns(s: Store)
    ensures KeepsRuns(s, s.(jobs := RecoverRows(s.jobs, s.name)))
  {
    var e := s.(jobs := RecoverRows(s.jobs, s.name));
    A.RecoverInPlace(s);
    A.InPlaceStays(s, e);
    forall i | 0 <= i < |s.jobs|
      ensures e.jobs[i].id == s.jobs[i].id && e.jobs[i].body == s.jobs[i].body
      ensures RunHere(s, s.jobs[i]) && IsTerminal(s.jobs[i].status) ==> SaysAsMuch(e.outputPruned, s.jobs[i], e.jobs[i])
    {
      RecoveredRows(s.jobs, s.name, i);
    }
  }

  lemma BindLeavesOwn(s: Store, c: Call, t: Store)
    requires Bound(s, c) == Ok(t)
    ensures OwnFactsStay(s, t) && t.name == s.name && t.jobs == s.jobs && t.outputPruned == s.outputPruned
  {
  }

  lemma PutLeavesRuns(s: Store, e: Store, j: Job)
    requires e.jobs == PutJob(s.jobs, j) && !A.HasRun(s, j.id)
    requires var i := JobIndex(s.jobs, j.id); i < |s.jobs| ==> s.jobs[i].body == j.body
    ensures FinishedStay(s, e) && RunningStay(s, e)
  {
  }

  lemma SubmitKeepsRuns(s: Store, c: Call, now: Now, permit: bool, requestId: string, a: Accepted)
    requires Gate(s, c) == Ok(None) && c.argv != [] && SubmitEdit(s, c, now, permit, requestId) == Ok(a)
    ensures KeepsRuns(s, a.store) && RunningStay(s, a.store)
  {
    var t := SubmitShape(s, c, now, permit, requestId, a);
    BindLeavesOwn(s, c, t);
    A.GateFree(s, c);
    var status: Status :| (status.Running? || status.Denied?)
      && a.store.jobs == PutJob(s.jobs, Job(c.id, c.from, s.name, c.argv, status, [], []));
    var j := Job(c.id, c.from, s.name, c.argv, status, [], []);
    PutLeavesRuns(s, a.store, j);
    A.PutStays(s, a.store, j);
  }

  // ---- Each edit keeps things tidy

  lemma FinishedDone(s: Store, e: Store)
    requires FinishedStay(s, e) && CertsKept(s, e) && e.name == s.name
    ensures forall k :: DoneHere(s, k) ==> DoneHere(e, k)
    ensures forall id :: ReceiptDone(s, id) ==> ReceiptDone(e, id)
  {
    forall id | JobIndex(s.jobs, id) < |s.jobs| ensures JobIndex(e.jobs, id) == JobIndex(s.jobs, id) {
      A.IndexStays(s.jobs, e.jobs, id);
    }
  }

  lemma TidyRowsStay(s: Store, e: Store)
    requires TidyRows(s) && FinishedStay(s, e) && CertsKept(s, e) && e.name == s.name
    requires e.historyPruned == s.historyPruned
    requires forall id :: id in e.outputPruned && id !in s.outputPruned ==> ReceiptDone(s, id)
    ensures TidyRows(e)
  {
    FinishedDone(s, e);
    assert forall k: Invocation :: k in e.historyPruned && k.body == e.name ==> DoneHere(s, k);
    assert forall id :: id in e.outputPruned ==> ReceiptDone(s, id);
  }

  lemma TidyEntriesStay(s: Store, e: Store)
    requires TidyEntries(s) && Sound(s) && Advances(s, e) && OwnFactsStay(s, e) && OriginsEmpty(e.entries)
    ensures TidyEntries(e)
  {
    forall k: Invocation | k.body == e.name && RunnerFact(e.entries, k).Some?
      ensures RunnerFact(e.entries, k).value.fact.revision < e.entries[k].change
    {
      assert RunnerFact(s.entries, k) == RunnerFact(e.entries, k);
      assert SamePlace(s.entries[k], e.entries[k]) || s.clock < e.entries[k].change;
    }
  }

  lemma IngestOrigins(s: Store, p: Published, t: Store)
    requires OriginsEmpty(s.entries) && Ingest(s, p) == Ok(t)
    ensures OriginsEmpty(t.entries)
  {
    var key := p.record.certificate.invocation;
    IngestEntry(s, p, t);
    if key in s.entries {
      assert EmptyOrigin(s.entries[key]);
    }
    assert EmptyOrigin(t.entries[key]);
  }

  lemma {:induction false} LearningOrigins(s: Store, items: seq<Published>, unknown: bool)
    requires OriginsEmpty(s.entries) && LearnAll(s, items, unknown).Ok?
    ensures OriginsEmpty(LearnAll(s, items, unknown).value.0.entries)
    decreases |items|
  {
    if items != [] {
      if AuthorsKnown(s, items[0].record.certificate) {
        IngestOrigins(s, items[0], Ingest(s, items[0]).value);
        LearningOrigins(Ingest(s, items[0]).value, items[1..], unknown);
      } else {
        LearningOrigins(s, items[1..], true);
      }
    }
  }

  lemma ReplyTidy(s: Store, peer: string, p: Published, e: Store)
    requires GoodStore(s) && Tidy(s) && peer != s.name && AcceptRunnerReply(s, peer, p) == Ok(e)
    ensures Tidy(e)
  {
    if e != s {
      ReplyShape(s, peer, p);
      IngestFrame(s, p);
      IngestOrigins(s, p, Ingest(s, p).value);
      ReplyAdvances(s, peer, p);
      ReplyKeepsRuns(s, peer, p, e);
      ReplyReceipts(s, peer, p, e);
      TidyRowsStay(s, e);
      TidyEntriesStay(s, e);
    }
  }

  lemma ReplyReceipts(s: Store, peer: string, p: Published, e: Store)
    requires peer != s.name && AcceptRunnerReply(s, peer, p) == Ok(e)
    ensures e.historyPruned == s.historyPruned && e.certs == s.certs && e.name == s.name
    ensures forall id :: id in e.outputPruned && id !in s.outputPruned ==> ReceiptDone(s, id)
  {
    if e != s {
      ReplyShape(s, peer, p);
      IngestFrame(s, p);
    }
  }

  lemma LearnTidy(s: Store, peer: string, asked: Progress, page: Page, e: Store)
    requires GoodStore(s) && Tidy(s) && LearnPage(s, peer, asked, page) == Ok(e) && OwnFactsStay(s, e)
    ensures Tidy(e)
  {
    LearnIsGood(s, peer, asked, page, e);
    LearningOrigins(s, page.entries, !page.reset && asked.unknown);
    assert TidyRows(e) by {
      TidyRowsStay(s, e);
    }
    TidyEntriesStay(s, e);
  }

  lemma EditTidy(s: Store, lost: set<string>, edit: Edit, e: Store)
    requires GoodStore(s) && PublishedBut(s, lost) && Tidy(s) && Fair(s, edit) && Apply(s, edit) == Ok(e)
    requires KeepsRuns(s, e) && !edit.Submit? && !edit.Finish? && !edit.Recover?
    ensures Tidy(e)
  {
    match edit
    case Learn(peer, asked, page) => LearnTidy(s, peer, asked, page, e);
    case Reply(peer, p) => ReplyTidy(s, peer, p, e);
    case Discard(keep) => PruneStraight(s, lost, keep, e);
    case _ =>
      OtherFrame(s, edit, e);
      SameHistoryTidy(s, e);
  }

  lemma SameHistoryTidy(s: Store, e: Store)
    requires GoodStore(s) && Tidy(s) && FinishedStay(s, e)
    requires e == s.(jobs := e.jobs, grants := e.grants, requests := e.requests, peers := e.peers,
                          retryLinks := e.retryLinks)
    ensures Tidy(e)
  {
    TidyRowsStay(s, e);
  }

  lemma SubmitTidy(s: Store, c: Call, now: Now, permit: bool, requestId: string, a: Accepted)
    requires GoodStore(s) && Tidy(s) && Gate(s, c) == Ok(None) && c.argv != []
    requires SubmitEdit(s, c, now, permit, requestId) == Ok(a)
    ensures Tidy(a.store)
  {
    SubmitKeepsRuns(s, c, now, permit, requestId, a);
    var t := SubmitShape(s, c, now, permit, requestId, a);
    BoundAdvances(s, c, t);
    BoundOrigins(s, c, t);
    TidyRowsStay(s, a.store);
    TidyEntriesStay(s, a.store);
  }

  lemma BoundOrigins(s: Store, c: Call, t: Store)
    requires OriginsEmpty(s.entries) && Bound(s, c) == Ok(t)
    ensures OriginsEmpty(t.entries) && t.historyPruned == s.historyPruned && t.outputPruned == s.outputPruned
  {
  }

  /** A run whose row says so is in flight: published as running, not pruned, with revisions left. */
  lemma RunIsInFlight(s: Store, lost: set<string>, i: nat)
    requires GoodStore(s) && PublishedBut(s, lost) && Tidy(s) && i < |s.jobs|
    requires s.jobs[i].status.Running? && s.jobs[i].body == s.name
    ensures s.jobs[i].id !in lost && InFlight(s, s.jobs[i])
  {
    var j := s.jobs[i];
    IndexOfRow(s.jobs, i);
    assert RowCertified(s, j);
    assert j.id in lost ==> Apart(s, j.id);
    assert Agrees(s, j);
    var k := s.certs[j.id];
    assert k.body == s.name;
    assert j.id in s.outputPruned ==> ReceiptDone(s, j.id);
    assert k in s.historyPruned ==> DoneHere(s, k);
    assert RunnerFact(s.entries, k).value.fact.revision < s.entries[k].change;
  }
}
