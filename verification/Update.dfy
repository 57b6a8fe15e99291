/** One committed update (`Store::update`, src/store.rs): publish, normalize, evict, charge. */
module Update {
  import opened Types
  import opened History
  import opened Advance
  import opened Sums
  import opened Encoding
  import opened Storage
  import opened Retention

  ghost predicate Admissible(w: Widths, next: Store, previous: Store) {
    && EncodedLen(w, next) <= STATE_BYTES
    && (|| Charge(w, next) <= STATE_BYTES
        || (EncodedLen(w, previous) <= STATE_BYTES && Charge(w, next) <= Charge(w, previous)))
  }

  /** Everything `update` does between running the edit and saving the result. */
  ghost function Commit(w: Widths, edited: Store, previous: Store): Result<Store> {
    var refreshed :- RefreshOwned(edited, previous);
    var next :- Prepare(NormalizeOutput(refreshed), previous);
    if Admissible(w, next, previous) then Ok(next) else Err(Capacity)
  }

  // ---- Normalizing

  predicate RowTrimmed(a: Job, b: Job) {
    b == a || b == a.(stdout := [], stderr := [])
  }

  predicate EntryTrimmed(a: Entry, b: Entry) {
    b == a || b == a.(output := None)
  }

  /** Some saved bytes are gone and some receipts are added; nothing else differs. */
  ghost predicate Trimmed(s: Store, t: Store) {
    && t == s.(jobs := t.jobs, entries := t.entries, outputPruned := t.outputPruned)
    && |t.jobs| == |s.jobs| && (forall i :: 0 <= i < |s.jobs| ==> RowTrimmed(s.jobs[i], t.jobs[i]))
    && t.entries.Keys == s.entries.Keys && (forall k :: k in s.entries ==> EntryTrimmed(s.entries[k], t.entries[k]))
    && s.outputPruned <= t.outputPruned
  }

  lemma TrimmedTransitive(a: Store, b: Store, c: Store)
    requires Trimmed(a, b) && Trimmed(b, c)
    ensures Trimmed(a, c)
  {
    forall i | 0 <= i < |a.jobs| ensures RowTrimmed(a.jobs[i], c.jobs[i]) {
      assert RowTrimmed(a.jobs[i], b.jobs[i]) && RowTrimmed(b.jobs[i], c.jobs[i]);
    }
    forall k | k in a.entries ensures EntryTrimmed(a.entries[k], c.entries[k]) {
      assert EntryTrimmed(a.entries[k], b.entries[k]) && EntryTrimmed(b.entries[k], c.entries[k]);
    }
  }

  lemma TrimmedAdvances(s: Store, t: Store)
    requires Sound(s) && Trimmed(s, t)
    ensures Sound(t) && Advances(s, t)
  {
    assert forall k :: k in s.entries ==>
      SamePlace(s.entries[k], t.entries[k]) && RecordAtMost(s.entries[k].record, t.entries[k].record);
  }

  lemma ForgetTrims(s: Store)
    ensures Trimmed(s, ForgetPruned(s))
  {
    assert ForgetPruned(s).entries.Keys == s.entries.Keys;
  }

  lemma NormalizeJobTrims(s: Store, i: nat)
    requires i < |s.jobs|
    ensures Trimmed(s, NormalizeJob(s, i))
  {
  }

  lemma {:induction false} NormalizeJobsTrim(s: Store, i: nat)
    requires i <= |s.jobs|
    ensures Trimmed(s, NormalizeJobs(s, i))
    decreases |s.jobs| - i
  {
    if i < |s.jobs| {
      NormalizeJobTrims(s, i);
      NormalizeJobsTrim(NormalizeJob(s, i), i + 1);
      TrimmedTransitive(s, NormalizeJob(s, i), NormalizeJobs(s, i));
    }
  }

  lemma NormalizeTrims(s: Store)
    ensures Trimmed(s, NormalizeOutput(s))
  {
    ForgetTrims(s);
    NormalizeJobsTrim(ForgetPruned(s), 0);
    TrimmedTransitive(s, ForgetPruned(s), NormalizeOutput(s));
  }

  lemma TrimmingEntryCharge(w: Widths, entries: Entries, entries': Entries, pruned: set<Invocation>)
    requires entries'.Keys == entries.Keys && forall k :: k in entries ==> EntryTrimmed(entries[k], entries'[k])
    ensures Sum(entries'.Keys, EntryCharge(w, entries', pruned)) <= Sum(entries.Keys, EntryCharge(w, entries, pruned))
    ensures EntrySum(entries', (e: Entry) => RetainedBytes(e.output))
         <= EntrySum(entries, (e: Entry) => RetainedBytes(e.output))
  {
    SumBelow(entries.Keys, EntryCharge(w, entries, pruned), EntryCharge(w, entries', pruned));
    SumBelow(entries.Keys, AtEntry(entries, (e: Entry) => RetainedBytes(e.output)),
             AtEntry(entries', (e: Entry) => RetainedBytes(e.output)));
  }

  lemma TrimmingJobCharge(jobs: seq<Job>, pruned: set<string>, i: nat)
    requires i < |jobs|
    ensures SumSeq(jobs[i := jobs[i].(stdout := [], stderr := [])], JobCharge(pruned))
         <= SumSeq(jobs, JobCharge(pruned))
  {
    SumSeqBelow(jobs, JobCharge(pruned), jobs[i := jobs[i].(stdout := [], stderr := [])], JobCharge(pruned));
  }

  /** A step that only trims entries, or also clears row i and may add that row's receipt. */
  lemma TrimStepCharge(w: Widths, s: Store, t: Store, i: nat)
    requires Trimmed(s, t)
    requires (t.jobs == s.jobs && t.outputPruned == s.outputPruned)
          || (i < |s.jobs| && t.jobs == s.jobs[i := s.jobs[i].(stdout := [], stderr := [])]
              && t.outputPruned in {s.outputPruned, s.outputPruned + {s.jobs[i].id}})
    ensures Charge(w, t) <= Charge(w, s)
  {
    ChargeByRows(w, s);
    ChargeByRows(w, t);
    TrimmingEntryCharge(w, s.entries, t.entries, s.historyPruned);
    assert |t.entries| == |t.entries.Keys| == |s.entries|;
    if t.jobs != s.jobs || t.outputPruned != s.outputPruned {
      ClearingJobCharge(s.jobs, s.outputPruned, i);
      TrimmingJobCharge(s.jobs, s.outputPruned, i);
    }
  }

  lemma NormalizeJobCharge(w: Widths, s: Store, i: nat)
    requires i < |s.jobs|
    ensures Charge(w, NormalizeJob(s, i)) <= Charge(w, s)
  {
    var t := NormalizeJob(s, i);
    NormalizeJobTrims(s, i);
    assert (t.jobs == s.jobs && t.outputPruned == s.outputPruned)
        || (t.jobs == s.jobs[i := s.jobs[i].(stdout := [], stderr := [])]
            && t.outputPruned in {s.outputPruned, s.outputPruned + {s.jobs[i].id}}) by {
      assert s.outputPruned + {} == s.outputPruned;
    }
    TrimStepCharge(w, s, t, i);
  }

  lemma {:induction false} NormalizeJobsCharge(w: Widths, s: Store, i: nat)
    requires i <= |s.jobs|
    ensures Charge(w, NormalizeJobs(s, i)) <= Charge(w, s)
    decreases |s.jobs| - i
  {
    if i < |s.jobs| {
      NormalizeJobCharge(w, s, i);
      NormalizeJobTrims(s, i);
      NormalizeJobsCharge(w, NormalizeJob(s, i), i + 1);
    }
  }

  lemma NormalizeNeverRaisesCharge(w: Widths, s: Store)
    ensures Charge(w, NormalizeOutput(s)) <= Charge(w, s)
  {
    ForgetTrims(s);
    TrimStepCharge(w, s, ForgetPruned(s), 0);
    NormalizeJobsCharge(w, ForgetPruned(s), 0);
  }

  // ---- Tombstones

  /** A pruned invocation keeps no replica, and its finished job keeps no bytes. */
  ghost predicate Tombstones(s: Store) {
    && (forall k :: k in s.historyPruned && k in s.entries ==> s.entries[k].output.None?)
    && RowsClean(s, |s.jobs|)
  }

  ghost predicate RowsClean(s: Store, n: nat)
    requires n <= |s.jobs|
  {
    forall i :: 0 <= i < n ==> RowClean(s, s.jobs[i])
  }

  predicate RowClean(s: Store, j: Job) {
    (IsTerminal(j.status) && j.id in s.certs && s.certs[j.id] in s.historyPruned && BoundTo(s, j, s.certs[j.id]))
    ==> JobBytes(j) == 0
  }

  lemma NormalizeJobCleans(s: Store, i: nat)
    requires i < |s.jobs|
    ensures var t := NormalizeJob(s, i);
      && RowClean(t, t.jobs[i])
      && (forall m :: 0 <= m < |s.jobs| && m != i ==>
            t.jobs[m] == s.jobs[m] && (RowClean(t, t.jobs[m]) <==> RowClean(s, s.jobs[m])))
  {
  }

  lemma {:induction false} NormalizeJobsClean(s: Store, i: nat, t: Store)
    requires i <= |s.jobs| && RowsClean(s, i) && t == NormalizeJobs(s, i)
    ensures RowsClean(t, |t.jobs|)
    decreases |s.jobs| - i
  {
    if i < |s.jobs| {
      NormalizeJobCleans(s, i);
      NormalizeJobTrims(s, i);
      assert forall m :: 0 <= m < i ==> RowClean(s, s.jobs[m]);
      NormalizeJobsClean(NormalizeJob(s, i), i + 1, t);
    }
  }

  lemma NormalizeBuries(s: Store)
    ensures Tombstones(NormalizeOutput(s))
  {
    NormalizeJobsClean(ForgetPruned(s), 0, NormalizeOutput(s));
    NormalizeJobsTrim(ForgetPruned(s), 0);
    var t := NormalizeOutput(s);
    forall k | k in t.historyPruned && k in t.entries
      ensures t.entries[k].output.None?
    {
      assert EntryTrimmed(ForgetPruned(s).entries[k], t.entries[k]);
    }
  }

  lemma RemovalBuries(s: Store, k: Invocation)
    requires UniqueIds(s.jobs) && SoundCerts(s.entries, s.certs) && Tombstones(s)
    requires k in CandidateKeys(s) && RemovePayload(s, k).Ok?
    ensures Tombstones(RemovePayload(s, k).value)
  {
    var t := RemovePayload(s, k).value;
    RemovalShape(s, k);
    forall i | 0 <= i < |t.jobs|
      ensures RowClean(t, t.jobs[i])
    {
      IndexOfRow(s.jobs, i);
      assert RowClean(s, s.jobs[i]);
    }
  }

  lemma {:induction false} EvictionBuries(s: Store, keys: seq<Invocation>)
    requires Sound(s) && UniqueIds(s.jobs) && ListsCandidates(s, keys) && Tombstones(s)
    requires (forall k :: k in keys ==> k in s.entries) && EvictFrom(s, keys).Ok?
    ensures var t := EvictFrom(s, keys).value; Tombstones(t) && OutputBytes(t) <= OUTPUT_BYTES && UniqueIds(t.jobs)
    decreases |keys|
  {
    if OutputBytes(s) > OUTPUT_BYTES {
      assert keys[0] in keys;
      var u := RemovePayload(s, keys[0]).value;
      RemovalAdvances(s, keys[0]);
      RemovalBuries(s, keys[0]);
      RemovalKeepsStuck(s, u, keys[0]);
      ListStep(s, keys, u);
      EvictionBuries(u, keys[1..]);
    }
  }

  lemma EvictionKeeps(w: Widths, s: Store, t: Store)
    requires Sound(s) && UniqueIds(s.jobs) && Tombstones(s) && Evict(s) == Ok(t)
    ensures Sound(t) && UniqueIds(t.jobs) && Tombstones(t) && OutputBytes(t) <= OUTPUT_BYTES
    ensures Advances(s, t) && OnlyOutputDropped(s, t) && Charge(w, t) <= Charge(w, s)
  {
    var keys := Candidates(s);
    EvictionBuries(s, keys);
    var n := EvictionIsMinimal(s, keys);
    assert forall k :: k in keys[..n] ==> k in keys;
    PruningNeverRaisesCharge(w, s, keys[..n]);
    PruningKeepsRows(s, keys[..n]);
  }

  // ---- One committed update

  predicate Ours(s: Store, j: Job) {
    j.from == s.name || j.body == s.name
  }

  /** Every job row is one this machine takes part in and is bound to its signed admission. */
  ghost predicate Certified(s: Store) {
    forall i :: 0 <= i < |s.jobs| ==> RowCertified(s, s.jobs[i])
  }

  predicate RowCertified(s: Store, j: Job) {
    Ours(s, j) && j.id in s.certs && BoundTo(s, j, s.certs[j.id])
  }

  ghost predicate GoodStore(s: Store) {
    && Sound(s) && UniqueIds(s.jobs) && Certified(s) && Tombstones(s)
    && OutputBytes(s) <= OUTPUT_BYTES && s.trust == TrustOf(s.peers)
  }

  ghost predicate CertsKept(s: Store, t: Store) {
    forall id :: id in s.certs ==> id in t.certs && t.certs[id] == s.certs[id]
  }

  /** What every edit passed to `update` does to the history it starts from. */
  ghost predicate GoodEdit(s: Store, e: Store) {
    && Advances(s, e) && Sound(e) && UniqueIds(e.jobs) && CertsKept(s, e)
    && forall i :: 0 <= i < |e.jobs| ==> Ours(e, e.jobs[i]) && FreshJob(e, e.jobs[i])
  }

  predicate SameControl(s: Store, t: Store) {
    && t.name == s.name && t.key == s.key && t.peers == s.peers && t.grants == s.grants && t.requests == s.requests
    && |t.jobs| == |s.jobs| && forall i :: 0 <= i < |s.jobs| ==> RowTrimmed(s.jobs[i], t.jobs[i])
  }

  lemma {:induction false} ChangedAreRows(jobs: seq<Job>, previous: seq<Job>)
    requires UniqueIds(jobs)
    ensures var changed := ChangedJobs(jobs, previous);
      && UniqueIds(changed)
      && (forall j :: j in changed <==> j in jobs && JobChanged(previous, j))
  {
    if jobs != [] {
      ChangedAreRows(jobs[1..], previous);
      assert forall j :: j in jobs <==> j == jobs[0] || j in jobs[1..];
      forall j | j in ChangedJobs(jobs[1..], previous) ensures j.id != jobs[0].id {
        var m :| 0 <= m < |jobs[1..]| && jobs[1..][m] == j;
        assert jobs[m + 1] == j;
      }
    }
  }

  lemma ChangedAreFresh(e: Store, s: Store, changed: seq<Job>)
    requires GoodEdit(s, e) && changed == ChangedJobs(e.jobs, s.jobs)
    ensures FreshJobs(WithTrust(e), changed) && Sound(WithTrust(e))
    ensures forall j :: j in changed <==> j in e.jobs && JobChanged(s.jobs, j)
  {
    ChangedAreRows(e.jobs, s.jobs);
    forall i | 0 <= i < |changed| ensures FreshJob(WithTrust(e), changed[i]) {
      assert changed[i] in e.jobs;
    }
  }

  lemma RefreshAdvances(e: Store, s: Store, r: Store)
    requires GoodEdit(s, e) && RefreshOwned(e, s) == Ok(r)
    ensures Sound(r) && Advances(e, r) && CertsKept(e, r)
    ensures r == WithTrust(e).(clock := r.clock, entries := r.entries, certs := r.certs)
    ensures forall j :: j in e.jobs && JobChanged(s.jobs, j) && Ours(e, j) ==>
      j.id in r.certs && BoundTo(r, j, r.certs[j.id])
  {
    var changed := ChangedJobs(e.jobs, s.jobs);
    ChangedAreFresh(e, s, changed);
    PublishJobsAdvance(WithTrust(e), s.jobs, changed);
  }

  lemma RefreshCertifies(e: Store, s: Store, r: Store)
    requires GoodStore(s) && GoodEdit(s, e) && RefreshOwned(e, s) == Ok(r)
    ensures Certified(r)
  {
    RefreshAdvances(e, s, r);
    AdvancesTransitive(s, e, r);
    forall i | 0 <= i < |r.jobs|
      ensures RowCertified(r, r.jobs[i])
    {
      var j := r.jobs[i];
      assert j in e.jobs && j == e.jobs[i];
      if !JobChanged(s.jobs, j) {
        assert RowCertified(s, s.jobs[JobIndex(s.jobs, j.id)]);
        assert j.id in s.certs ==> RecordAtMost(s.entries[s.certs[j.id]].record, r.entries[s.certs[j.id]].record);
      }
    }
  }

  lemma TrimmingKeepsCertified(r: Store, n: Store)
    requires Certified(r) && Trimmed(r, n)
    ensures Certified(n)
  {
    forall i | 0 <= i < |n.jobs| ensures RowCertified(n, n.jobs[i]) {
      assert RowCertified(r, r.jobs[i]) && RowTrimmed(r.jobs[i], n.jobs[i]);
      var id := r.jobs[i].id;
      assert id in r.certs && r.certs[id] in r.entries ==> EntryTrimmed(r.entries[r.certs[id]], n.entries[n.certs[id]]);
    }
  }

  lemma DroppingKeepsCertified(n: Store, t: Store)
    requires Certified(n) && OnlyOutputDropped(n, t)
    ensures Certified(t)
  {
    forall i | 0 <= i < |t.jobs| ensures RowCertified(t, t.jobs[i]) {
      assert RowCertified(n, n.jobs[i]) && RowKept(n.jobs[i], t.jobs[i]);
    }
  }

  lemma RowsControl(e: Store, n: Store, t: Store)
    requires |n.jobs| == |e.jobs| == |t.jobs|
    requires forall i :: 0 <= i < |e.jobs| ==> RowTrimmed(e.jobs[i], n.jobs[i]) && RowKept(n.jobs[i], t.jobs[i])
    ensures forall i :: 0 <= i < |e.jobs| ==> RowTrimmed(e.jobs[i], t.jobs[i])
  {
    forall i | 0 <= i < |e.jobs| ensures RowTrimmed(e.jobs[i], t.jobs[i]) {
      assert RowTrimmed(e.jobs[i], n.jobs[i]) && RowKept(n.jobs[i], t.jobs[i]);
    }
  }

  lemma TrimmedIds(s: Store, t: Store)
    requires Trimmed(s, t) && UniqueIds(s.jobs)
    ensures UniqueIds(t.jobs)
  {
    forall i, j | 0 <= i < j < |t.jobs| ensures t.jobs[i].id != t.jobs[j].id {
      assert RowTrimmed(s.jobs[i], t.jobs[i]) && RowTrimmed(s.jobs[j], t.jobs[j]);
    }
  }

  lemma CommitStages(w: Widths, e: Store, s: Store, t: Store) returns (r: Store, n: Store)
    requires Commit(w, e, s) == Ok(t)
    ensures RefreshOwned(e, s) == Ok(r) && n == NormalizeOutput(r) && Evict(n) == Ok(t)
    ensures Admissible(w, t, s) && WithinCounts(n, s)
  {
    r := RefreshOwned(e, s).value;
    n := NormalizeOutput(r);
  }

  lemma NormalizeKeeps(r: Store, n: Store)
    requires Sound(r) && UniqueIds(r.jobs) && Certified(r) && n == NormalizeOutput(r)
    ensures Sound(n) && UniqueIds(n.jobs) && Certified(n) && Tombstones(n) && Advances(r, n) && Trimmed(r, n)
  {
    NormalizeTrims(r);
    TrimmedAdvances(r, n);
    TrimmedIds(r, n);
    NormalizeBuries(r);
    TrimmingKeepsCertified(r, n);
  }

  lemma StagesControl(e: Store, r: Store, n: Store, t: Store)
    requires r == WithTrust(e).(clock := r.clock, entries := r.entries, certs := r.certs)
    requires Trimmed(r, n) && OnlyOutputDropped(n, t)
    ensures SameControl(e, t)
  {
    RowsControl(e, n, t);
  }

  lemma PublishKeeps(e: Store, s: Store, r: Store)
    requires GoodStore(s) && GoodEdit(s, e) && RefreshOwned(e, s) == Ok(r)
    ensures Sound(r) && UniqueIds(r.jobs) && Certified(r) && Advances(s, r) && r.trust == TrustOf(r.peers)
    ensures r == WithTrust(e).(clock := r.clock, entries := r.entries, certs := r.certs)
  {
    RefreshAdvances(e, s, r);
    RefreshCertifies(e, s, r);
    AdvancesTransitive(s, e, r);
  }

  lemma EvictKeeps(w: Widths, n: Store, t: Store)
    requires Sound(n) && UniqueIds(n.jobs) && Certified(n) && Tombstones(n) && n.trust == TrustOf(n.peers)
    requires Evict(n) == Ok(t)
    ensures GoodStore(t) && Advances(n, t) && OnlyOutputDropped(n, t)
  {
    EvictionKeeps(w, n, t);
    DroppingKeepsCertified(n, t);
  }

  /** A committed update keeps the store good, only moves it forward, and changes no control record
      beyond its edit: job rows keep everything but their saved bytes. */
  lemma CommitKeeps(w: Widths, e: Store, s: Store, t: Store)
    requires GoodStore(s) && GoodEdit(s, e) && Commit(w, e, s) == Ok(t)
    ensures GoodStore(t) && Advances(s, t) && SameControl(e, t)
  {
    var r, n := CommitStages(w, e, s, t);
    PublishKeeps(e, s, r);
    NormalizeKeeps(r, n);
    EvictKeeps(w, n, t);
    StagesControl(e, r, n, t);
    AdvancesTransitive(s, r, n);
    AdvancesTransitive(s, n, t);
  }

  // ---- What an update limits, and what it forgets

  predicate AtMost(next: nat, previous: nat, max: nat) {
    next <= max || next <= previous
  }

  /** No committed update takes a count over its limit, or further over it. */
  lemma CommitLimitsCounts(w: Widths, e: Store, s: Store, t: Store)
    requires GoodStore(s) && GoodEdit(s, e) && Commit(w, e, s) == Ok(t)
    ensures AtMost(|t.jobs|, |s.jobs|, 10_000) && AtMost(|t.entries|, |s.entries|, 30_000)
    ensures AtMost(|t.requests|, |s.requests|, 1024) && AtMost(|t.peers|, |s.peers|, 64)
    ensures AtMost(|t.grants|, |s.grants|, 256)
  {
    var r, n := CommitStages(w, e, s, t);
    PublishKeeps(e, s, r);
    NormalizeKeeps(r, n);
    EvictKeeps(w, n, t);
    assert |t.entries| == |t.entries.Keys| == |n.entries.Keys| == |n.entries|;
  }

  lemma CommitFollowsPeers(w: Widths, e: Store, s: Store, t: Store)
    requires GoodStore(s) && GoodEdit(s, e) && Commit(w, e, s) == Ok(t)
    ensures t.trust == WithTrust(e).trust && t.progress == WithTrust(e).progress
  {
    var r, n := CommitStages(w, e, s, t);
    PublishKeeps(e, s, r);
    NormalizeKeeps(r, n);
    EvictKeeps(w, n, t);
  }

  /** Whenever the paired machines or their keys change, every scan starts over; nothing else does that. */
  lemma CommitRestartsScans(w: Widths, e: Store, s: Store, t: Store)
    requires GoodStore(s) && GoodEdit(s, e) && Commit(w, e, s) == Ok(t)
    ensures forall name, key :: (name, key) in t.trust <==> exists p :: p in e.peers && p.name == name && p.key == key
    ensures t.progress == if t.trust == e.trust then e.progress else map[]
  {
    CommitFollowsPeers(w, e, s, t);
    TrustIsPeers(e.peers);
  }

  lemma TrustIsPeers(peers: seq<Peer>)
    ensures forall name, key ::
      (name, key) in TrustOf(peers) <==> exists p :: p in peers && p.name == name && p.key == key
  {
  }
}
