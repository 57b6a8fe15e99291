/** Which captured bytes a replica keeps and which a page shows (`ingest` and `selected_output`,
    src/history.rs): exactly when, and that shown bytes travel from machine to machine. */
module Outputs {
  import opened Types
  import opened History
  import opened Advance
  import opened Encoding
  import opened Storage
  import opened Update
  import Edits
  import Publication
  import Retention

  /** The fact was signed for exactly these bytes. */
  predicate SignedFor(fact: Fact, stdout: seq<byte>, stderr: seq<byte>) {
    && fact.stdout == OutputRef(|stdout|, Sha256(stdout))
    && fact.stderr == OutputRef(|stderr|, Sha256(stderr))
  }

  /** A row bound to the invocation still has the bytes that the fact was signed for. */
  predicate RowHas(s: Store, key: Invocation, fact: Fact, j: Job) {
    && j.id == key.id && j.from == key.from && j.body == key.body && j.argv == key.argv
    && key.id in s.certs && s.certs[key.id] == key && key.id !in s.outputPruned
    && SignedFor(fact, j.stdout, j.stderr)
  }

  predicate OwnHas(s: Store, key: Invocation, fact: Fact) {
    exists j :: j in s.jobs && RowHas(s, key, fact, j)
  }

  // ---- Learning

  /** What an entry must hold once it is stored anew: no bytes where a row has them, else those just shown, unless
      pruned, else those it had; in either case only bytes that its fact was signed for. */
  predicate KeepsBest(s: Store, key: Invocation, r: Record, had: Option<Captured>, shown: Option<Captured>,
                      kept: Option<Captured>) {
    if r.Selected().None? then kept == had else
    var fact := r.Selected().value.fact;
    var given := shown.Some? && key !in s.historyPruned && SignedFor(fact, shown.value.stdout, shown.value.stderr);
    var sound := had.Some? && SignedFor(fact, had.value.stdout, had.value.stderr);
    if OwnHas(s, key, fact) then kept == None
    else if given then kept == shown
    else if sound then kept == had
    else kept == None
  }

  lemma OwnHasIsHeld(s: Store, key: Invocation, r: Record)
    requires r.certificate.invocation == key && r.Selected().Some?
    ensures OwnHas(s, key, r.Selected().value.fact) <==> HeldLocally(s, key, r)
  {
    var fact := r.Selected().value.fact;
    forall j | j in s.jobs
      ensures RowHas(s, key, fact, j) <==>
        (&& j.id in s.certs && s.certs[j.id] == key && MatchesJob(r.certificate, j) && j.id !in s.outputPruned
         && OutputMatches(OutputOfJob(j), fact))
    {
    }
  }

  /** Exactly when learning changes the store, and which bytes the entry then holds: the best there are. A replica of
      bytes that a row has too is no change. */
  lemma IngestStores(s: Store, p: Published, t: Store)
    requires Ingest(s, p) == Ok(t)
    ensures var key := p.record.certificate.invocation;
      && key in t.entries
      && var r := t.entries[key].record;
         var had := if key in s.entries then s.entries[key].output else None;
         && (t != s ==> KeepsBest(s, key, r, had, p.output, t.entries[key].output))
         && (t == s <==>
               && key in s.entries && s.entries[key].record == r
               && (KeepsBest(s, key, r, had, p.output, had)
                   || (r.Selected().Some? && OwnHas(s, key, r.Selected().value.fact))))
  {
    var key := p.record.certificate.invocation;
    IngestShape(s, p, t);
    var r := t.entries[key].record;
    assert r.certificate.invocation == key;
    if r.Selected().Some? {
      OwnHasIsHeld(s, key, r);
    }
  }

  // ---- Showing

  /** Exactly which bytes a page shows for an entry: its row's, else its replica's, if the fact was signed for them
      and they are not pruned. */
  lemma ExportShows(s: Store, key: Invocation)
    requires key in s.entries && s.entries[key].record.certificate.invocation == key && UniqueIds(s.jobs)
    ensures Export(s, key).record == s.entries[key].record && Export(s, key).change == s.entries[key].change
    ensures var shown, selected, had := Export(s, key).output, s.entries[key].record.Selected(), s.entries[key].output;
      if selected.None? || key in s.historyPruned then shown == None
      else
        var fact := selected.value.fact;
        && (shown.Some? ==> SignedFor(fact, shown.value.stdout, shown.value.stderr))
        && (shown.Some? <==> OwnHas(s, key, fact)
                             || (had.Some? && SignedFor(fact, had.value.stdout, had.value.stderr)))
  {
    var selected := s.entries[key].record.Selected();
    if selected.Some? && key !in s.historyPruned {
      OwnHasIsBound(s, key, selected.value.fact);
    }
  }

  lemma OwnHasIsBound(s: Store, key: Invocation, fact: Fact)
    requires key in s.entries && s.entries[key].record.certificate.invocation == key && UniqueIds(s.jobs)
    ensures OwnHas(s, key, fact) <==>
      var j := FindJob(s.jobs, key.id);
      j.Some? && BoundTo(s, j.value, key) && key.id !in s.outputPruned && OutputMatches(OutputOfJob(j.value), fact)
  {
    var i := JobIndex(s.jobs, key.id);
    if OwnHas(s, key, fact) {
      var j :| j in s.jobs && RowHas(s, key, fact, j);
      var m :| 0 <= m < |s.jobs| && s.jobs[m] == j;
      assert m == i;
    } else if i < |s.jobs| {
      assert s.jobs[i] in s.jobs && !RowHas(s, key, fact, s.jobs[i]);
    }
  }

  // ---- From machine to machine

  /** Bytes that were shown with the fact that the receiver ends up with are shown by it from then on, the same ones,
      unless it has pruned them. */
  lemma LearnedIsShown(s: Store, p: Published, t: Store)
    requires UniqueIds(s.jobs) && Ingest(s, p) == Ok(t) && p.output.Some?
    requires var key := p.record.certificate.invocation;
      && key !in s.historyPruned
      && key in t.entries && t.entries[key].record.Selected() == p.record.Selected()
    ensures Export(t, p.record.certificate.invocation).output == p.output
  {
    var key := p.record.certificate.invocation;
    IngestStores(s, p, t);
    IngestShape(s, p, t);
    ExportShows(t, key);
    var fact := p.record.Selected().value.fact;
    assert SignedFor(fact, p.output.value.stdout, p.output.value.stderr);
    OwnHasStays(s, t, key, fact);
  }

  lemma OwnHasStays(s: Store, t: Store, key: Invocation, fact: Fact)
    requires t.jobs == s.jobs && t.certs == s.certs && t.outputPruned == s.outputPruned
    ensures OwnHas(t, key, fact) <==> OwnHas(s, key, fact)
  {
    forall j | j in s.jobs ensures RowHas(t, key, fact, j) <==> RowHas(s, key, fact, j) {
    }
  }

  /** What one machine shows, a second that learns it shows to a third: the same bytes. */
  lemma RelayedUnchanged(a: Store, key: Invocation, b: Store, t: Store)
    requires key in a.entries && a.entries[key].record.certificate.invocation == key && UniqueIds(b.jobs)
    requires Export(a, key).output.Some? && Ingest(b, Export(a, key)) == Ok(t) && key !in b.historyPruned
    requires key in t.entries && t.entries[key].record.Selected() == a.entries[key].record.Selected()
    ensures Export(t, key).output == Export(a, key).output
  {
    LearnedIsShown(b, Export(a, key), t);
  }

  // ---- What an update keeps

  /** The bytes that the entry's fact was signed for are here, in a row or in the replica. */
  ghost predicate Holds(s: Store, key: Invocation) {
    && key in s.entries && s.entries[key].record.Selected().Some?
    && var fact, had := s.entries[key].record.Selected().value.fact, s.entries[key].output;
       OwnHas(s, key, fact) || (had.Some? && SignedFor(fact, had.value.stdout, had.value.stderr))
  }

  /** The same fact is shown, by the same author. */
  predicate SameShown(a: Record, b: Record) {
    a.Selected() == b.Selected() && (a.runner.Some? <==> b.runner.Some?)
  }

  predicate FactRises(a: Option<SignedFact>, b: Option<SignedFact>) {
    b == a || (b.Some? && (a.Some? ==> a.value.fact.revision < b.value.fact.revision))
  }

  /** Each of the two facts is as before or a later one. */
  predicate Rises(a: Record, b: Record) {
    FactRises(a.origin, b.origin) && FactRises(a.runner, b.runner)
  }

  /** A fact that is shown before and after some steps is shown in between. */
  lemma ShownBetween(a: Record, b: Record, c: Record)
    requires Rises(a, b) && RecordAtMost(b, c) && SameShown(a, c)
    ensures SameShown(a, b) && SameShown(b, c)
  {
  }

  lemma RisesOn(a: Record, b: Record, c: Record)
    requires Rises(a, b) && Rises(b, c)
    ensures Rises(a, c) && (SameShown(a, c) ==> SameShown(a, b) && SameShown(b, c))
  {
  }

  lemma CertifyHolds(s: Store, previous: seq<Job>, j: Job, u: Store, key: Invocation)
    requires FreshJob(s, j) && Certify(s, previous, j) == Ok(u) && Holds(s, key)
    ensures key in u.entries && u.entries[key] == s.entries[key] && Holds(u, key)
  {
    var c := CertifyShape(s, previous, j, u);
    var fact := s.entries[key].record.Selected().value.fact;
    if OwnHas(s, key, fact) {
      var row :| row in s.jobs && RowHas(s, key, fact, row);
      assert RowHas(u, key, fact, row);
    }
  }

  lemma WriteHolds(s: Store, j: Job, role: Role, digests: (OutputRef, OutputRef), t: Store, key: Invocation)
    requires SoundEntries(s.clock, s.entries) && Holds(s, key)
    requires j in s.jobs && j.id in s.certs && BoundTo(s, j, s.certs[j.id]) && WriteFact(s, j, role, digests) == Ok(t)
    requires SameShown(s.entries[key].record, t.entries[key].record)
    ensures Holds(t, key)
  {
    var fact := s.entries[key].record.Selected().value.fact;
    OwnHasStays(s, t, key, fact);
    assert RowHas(s, key, fact, j) ==> OwnHas(s, key, fact);
  }

  /** Writing a fact drops a replica exactly where the row has the bytes of the fact then shown, or the replica has
      other bytes than those. */
  lemma WrittenOutput(s: Store, j: Job, role: Role, digests: (OutputRef, OutputRef), t: Store)
    requires j.id in s.certs && s.certs[j.id] in s.entries && WriteFact(s, j, role, digests) == Ok(t)
    ensures var key := s.certs[j.id];
      && key in t.entries && t.entries[key].record.Selected().Some?
      && var fact, had := t.entries[key].record.Selected().value.fact, s.entries[key].output;
         t.entries[key].output ==
           if (j.id !in s.outputPruned && SignedFor(fact, j.stdout, j.stderr))
              || (had.Some? && !SignedFor(fact, had.value.stdout, had.value.stderr))
           then None else had
  {
  }

  lemma PublishJobHolds(s: Store, previous: seq<Job>, j: Job, t: Store, key: Invocation)
    requires Sound(s) && FreshJob(s, j) && j in s.jobs && Holds(s, key) && PublishJob(s, previous, j) == Ok(t)
    ensures key in t.entries && Rises(s.entries[key].record, t.entries[key].record)
    ensures SameShown(s.entries[key].record, t.entries[key].record) ==> Holds(t, key)
  {
    if j.from == s.name || j.body == s.name {
      var u := PublishStages(s, previous, j, t);
      CertifyAdvances(s, previous, j, u);
      CertifyHolds(s, previous, j, u, key);
      if t != u {
        PublishWrites(s, previous, j, u, t);
        var role := OwnRole(u.name, j).value;
        var digests := DigestsFor(u, j, role, FactIn(u.entries[u.certs[j.id]].record, role)).value;
        WrittenRises(u, j, role, digests, t, key);
        if SameShown(s.entries[key].record, t.entries[key].record) {
          WriteHolds(u, j, role, digests, t, key);
        }
      }
    }
  }

  lemma WrittenRises(s: Store, j: Job, role: Role, digests: (OutputRef, OutputRef), t: Store, key: Invocation)
    requires j.id in s.certs && s.certs[j.id] in s.entries && key in s.entries
    requires WriteFact(s, j, role, digests) == Ok(t)
    ensures key in t.entries && Rises(s.entries[key].record, t.entries[key].record)
  {
  }

  lemma {:induction false} PublishJobsHold(s: Store, previous: seq<Job>, changed: seq<Job>, t: Store, key: Invocation)
    requires Sound(s) && FreshJobs(s, changed) && (forall j :: j in changed ==> j in s.jobs) && Holds(s, key)
    requires PublishJobs(s, previous, changed) == Ok(t)
    ensures key in t.entries
    ensures SameShown(s.entries[key].record, t.entries[key].record) ==> Holds(t, key)
    decreases |changed|
  {
    if changed != [] {
      var j, rest := changed[0], changed[1..];
      var u := Publication.PublishStep(s, previous, changed);
      PublishJobHolds(s, previous, j, u, key);
      PublishJobAdvances(s, previous, j, u);
      PublishJobsAdvance(u, previous, rest);
      if SameShown(s.entries[key].record, t.entries[key].record) {
        ShownBetween(s.entries[key].record, u.entries[key].record, t.entries[key].record);
        PublishJobsHold(u, previous, rest, t, key);
      }
    }
  }

  lemma ForgetHolds(s: Store, key: Invocation)
    requires Holds(s, key) && key !in s.historyPruned
    ensures Holds(ForgetPruned(s), key)
  {
    OwnHasStays(s, ForgetPruned(s), key, s.entries[key].record.Selected().value.fact);
  }

  ghost predicate UnderOwnKeys(entries: Entries) {
    forall k :: k in entries ==> entries[k].record.certificate.invocation == k
  }

  /** A replica is dropped only where the row has the same bytes, and a row's bytes only where they are pruned. */
  lemma NormalizeJobHolds(s: Store, i: nat, key: Invocation)
    requires i < |s.jobs| && Holds(s, key) && key !in s.historyPruned && UnderOwnKeys(s.entries)
    ensures Holds(NormalizeJob(s, i), key) && UnderOwnKeys(NormalizeJob(s, i).entries)
  {
    var t := NormalizeJob(s, i);
    var fact := s.entries[key].record.Selected().value.fact;
    if t.entries[key].output != s.entries[key].output {
      DroppedIsOwn(s, i, key);
    }
    if OwnHas(s, key, fact) {
      var row :| row in s.jobs && RowHas(s, key, fact, row);
      var m :| 0 <= m < |s.jobs| && s.jobs[m] == row;
      assert t.jobs[m] == row;
      assert RowHas(t, key, fact, row);
    }
  }

  lemma DroppedIsOwn(s: Store, i: nat, key: Invocation)
    requires i < |s.jobs| && Holds(s, key) && UnderOwnKeys(s.entries)
    requires key in NormalizeJob(s, i).entries && NormalizeJob(s, i).entries[key].output != s.entries[key].output
    ensures OwnHas(s, key, s.entries[key].record.Selected().value.fact)
  {
    var fact, had := s.entries[key].record.Selected().value.fact, s.entries[key].output;
    assert had.Some? && SignedFor(fact, had.value.stdout, had.value.stderr) ==> RowHas(s, key, fact, s.jobs[i]);
  }

  lemma {:induction false} NormalizeJobsHold(s: Store, i: nat, key: Invocation)
    requires i <= |s.jobs| && Holds(s, key) && key !in s.historyPruned && UnderOwnKeys(s.entries)
    ensures Holds(NormalizeJobs(s, i), key)
    decreases |s.jobs| - i
  {
    if i < |s.jobs| {
      NormalizeJobHolds(s, i, key);
      NormalizeJobTrims(s, i);
      NormalizeJobsHold(NormalizeJob(s, i), i + 1, key);
    }
  }

  lemma RemovalHolds(s: Store, k: Invocation, t: Store, key: Invocation)
    requires k in s.entries && RemovePayload(s, k) == Ok(t) && Holds(s, key) && key !in t.historyPruned
    ensures Holds(t, key)
  {
    RemovalShape(s, k);
    var fact := s.entries[key].record.Selected().value.fact;
    if OwnHas(s, key, fact) {
      var row :| row in s.jobs && RowHas(s, key, fact, row);
      var m :| 0 <= m < |s.jobs| && s.jobs[m] == row;
      assert t.jobs[m] == row;
      assert RowHas(t, key, fact, row);
    }
  }

  lemma {:induction false} EvictionHolds(s: Store, keys: seq<Invocation>, t: Store, key: Invocation)
    requires (forall k :: k in keys ==> k in s.entries) && EvictFrom(s, keys) == Ok(t)
    requires Holds(s, key) && key !in t.historyPruned
    ensures Holds(t, key)
    decreases |keys|
  {
    if OutputBytes(s) > OUTPUT_BYTES {
      var u := RemovePayload(s, keys[0]).value;
      RemovalShape(s, keys[0]);
      EvictionPrunes(u, keys[1..], t);
      RemovalHolds(s, keys[0], u, key);
      EvictionHolds(u, keys[1..], t, key);
    }
  }

  lemma {:induction false} EvictionPrunes(s: Store, keys: seq<Invocation>, t: Store)
    requires (forall k :: k in keys ==> k in s.entries) && EvictFrom(s, keys) == Ok(t)
    ensures s.historyPruned <= t.historyPruned
    decreases |keys|
  {
    if OutputBytes(s) > OUTPUT_BYTES {
      RemovalShape(s, keys[0]);
      EvictionPrunes(RemovePayload(s, keys[0]).value, keys[1..], t);
    }
  }

  lemma StageRecords(r: Store, n: Store, t: Store, key: Invocation)
    requires Trimmed(r, n) && Retention.OnlyOutputDropped(n, t) && key in r.entries
    ensures key in t.entries && t.entries[key].record == r.entries[key].record
  {
    assert EntryTrimmed(r.entries[key], n.entries[key]);
  }

  lemma NormalizedHolds(r: Store, key: Invocation)
    requires Holds(r, key) && key !in r.historyPruned && UnderOwnKeys(r.entries)
    ensures Holds(NormalizeOutput(r), key)
  {
    ForgetHolds(r, key);
    NormalizeJobsHold(ForgetPruned(r), 0, key);
  }

  lemma SavedHolds(w: Widths, r: Store, n: Store, t: Store, key: Invocation)
    requires Sound(r) && UniqueIds(r.jobs) && Certified(r) && r.trust == TrustOf(r.peers)
    requires n == NormalizeOutput(r) && Evict(n) == Ok(t) && key in r.entries
    ensures Sound(t) && UniqueIds(t.jobs) && key in t.entries && t.entries[key].record == r.entries[key].record
    ensures Holds(r, key) && key !in t.historyPruned ==> Holds(t, key)
  {
    NormalizeKeeps(r, n);
    EvictKeeps(w, n, t);
    StageRecords(r, n, t, key);
    if Holds(r, key) && key !in t.historyPruned {
      NormalizedHolds(r, key);
      EvictionHolds(n, Candidates(n), t, key);
    }
  }

  lemma RefreshHolds(e: Store, s: Store, r: Store, key: Invocation)
    requires GoodEdit(s, e) && RefreshOwned(e, s) == Ok(r) && Holds(e, key)
    ensures key in r.entries
    ensures SameShown(e.entries[key].record, r.entries[key].record) ==> Holds(r, key)
  {
    var changed := ChangedJobs(e.jobs, s.jobs);
    ChangedAreFresh(e, s, changed);
    OwnHasStays(e, WithTrust(e), key, e.entries[key].record.Selected().value.fact);
    PublishJobsHold(WithTrust(e), s.jobs, changed, r, key);
  }

  lemma CommitHolds(w: Widths, e: Store, s: Store, t: Store, key: Invocation)
    requires GoodStore(s) && GoodEdit(s, e) && Commit(w, e, s) == Ok(t) && Holds(e, key)
    ensures Sound(t) && UniqueIds(t.jobs) && key in t.entries
    ensures SameShown(e.entries[key].record, t.entries[key].record) && key !in t.historyPruned ==> Holds(t, key)
  {
    var r, n := CommitStages(w, e, s, t);
    RefreshHolds(e, s, r, key);
    PublishKeeps(e, s, r);
    SavedHolds(w, r, n, t, key);
  }

  /** An update takes captured bytes away only by pruning them: what a page would have shown before publication,
      normalization and eviction it shows after them, as long as the same fact is shown. */
  lemma CommitKeepsOutput(w: Widths, e: Store, s: Store, t: Store, key: Invocation)
    requires GoodStore(s) && GoodEdit(s, e) && Commit(w, e, s) == Ok(t)
    requires key in e.entries && Export(e, key).output.Some?
    ensures key in t.entries
    ensures SameShown(e.entries[key].record, t.entries[key].record) && key !in t.historyPruned ==>
      Export(t, key).output == Export(e, key).output
  {
    ExportShows(e, key);
    CommitHolds(w, e, s, t, key);
    ExportShows(t, key);
  }

  // ---- From a page to the next machine's pages

  lemma MergedRises(s: Store, p: Published, t: Store)
    requires Ingest(s, p) == Ok(t)
    ensures var key := p.record.certificate.invocation;
      && key in t.entries && Rises(p.record, t.entries[key].record)
      && (key in s.entries ==> Rises(s.entries[key].record, t.entries[key].record))
      && forall k :: k in s.entries && k != key ==> k in t.entries && t.entries[k] == s.entries[k]
  {
    IngestShape(s, p, t);
  }

  lemma IngestHolds(s: Store, p: Published, t: Store, key: Invocation)
    requires Ingest(s, p) == Ok(t) && Holds(s, key) && key in t.entries
    requires SameShown(s.entries[key].record, t.entries[key].record)
    ensures Holds(t, key)
  {
    IngestShape(s, p, t);
    IngestStores(s, p, t);
    OwnHasStays(s, t, key, s.entries[key].record.Selected().value.fact);
  }

  lemma {:induction false} LearningHolds(s: Store, items: seq<Published>, unknown: bool, key: Invocation)
    requires Sound(s) && LearnAll(s, items, unknown).Ok? && key in s.entries
    ensures var t := LearnAll(s, items, unknown).value.0;
      && key in t.entries && Rises(s.entries[key].record, t.entries[key].record)
      && (Holds(s, key) && SameShown(s.entries[key].record, t.entries[key].record) ==> Holds(t, key))
    decreases |items|
  {
    if items != [] {
      if AuthorsKnown(s, items[0].record.certificate) {
        var u := Ingest(s, items[0]).value;
        IngestAdvances(s, items[0]);
        MergedRises(s, items[0], u);
        var t := LearnAll(u, items[1..], unknown).value.0;
        LearningHolds(u, items[1..], unknown, key);
        RisesOn(s.entries[key].record, u.entries[key].record, t.entries[key].record);
        if Holds(s, key) && SameShown(s.entries[key].record, t.entries[key].record) {
          IngestHolds(s, items[0], u, key);
        }
      } else {
        LearningHolds(s, items[1..], true, key);
      }
    }
  }

  lemma LearnStep(s: Store, items: seq<Published>, unknown: bool) returns (u: Store)
    requires Sound(s) && items != [] && AuthorsKnown(s, items[0].record.certificate)
    requires LearnAll(s, items, unknown).Ok?
    ensures Ingest(s, items[0]) == Ok(u) && LearnAll(u, items[1..], unknown) == LearnAll(s, items, unknown)
    ensures Sound(u) && u == s.(clock := u.clock, entries := u.entries)
  {
    u := Ingest(s, items[0]).value;
    IngestAdvances(s, items[0]);
  }

  /** The bytes of each item are there after the whole page, if its fact still is. */
  lemma {:induction false} PageHolds(s: Store, items: seq<Published>, unknown: bool, i: nat)
    requires Sound(s) && UniqueIds(s.jobs) && LearnAll(s, items, unknown).Ok? && i < |items|
    requires items[i].output.Some? && AuthorsKnown(s, items[i].record.certificate)
    requires items[i].record.certificate.invocation !in s.historyPruned
    ensures var t, p := LearnAll(s, items, unknown).value.0, items[i];
      var key := p.record.certificate.invocation;
      && ValidPublished(s, p) && key in t.entries && Rises(p.record, t.entries[key].record)
      && (SameShown(p.record, t.entries[key].record) ==> Holds(t, key))
    decreases |items|
  {
    var p, key := items[i], items[i].record.certificate.invocation;
    var t := LearnAll(s, items, unknown).value.0;
    if !AuthorsKnown(s, items[0].record.certificate) {
      PageHolds(s, items[1..], true, i - 1);
    } else {
      var u := LearnStep(s, items, unknown);
      if i > 0 {
        PageHolds(u, items[1..], unknown, i - 1);
        SamePeersSameRecord(s, u, p);
      } else {
        FirstHolds(s, p, u);
        LearningHolds(u, items[1..], unknown, key);
        RisesOn(p.record, u.entries[key].record, t.entries[key].record);
      }
    }
  }

  lemma SamePeersSameRecord(s: Store, u: Store, p: Published)
    requires u.name == s.name && u.key == s.key && u.peers == s.peers && ValidPublished(u, p)
    ensures ValidPublished(s, p)
  {
  }

  lemma FirstHolds(s: Store, p: Published, u: Store)
    requires Sound(s) && UniqueIds(s.jobs) && Ingest(s, p) == Ok(u) && p.output.Some?
    requires p.record.certificate.invocation !in s.historyPruned
    ensures var key := p.record.certificate.invocation;
      && ValidPublished(s, p) && key in u.entries && Rises(p.record, u.entries[key].record)
      && (SameShown(p.record, u.entries[key].record) ==> Holds(u, key))
  {
    var key := p.record.certificate.invocation;
    IngestAdvances(s, p);
    MergedRises(s, p, u);
    if SameShown(p.record, u.entries[key].record) {
      LearnedIsShown(s, p, u);
      ExportShows(u, key);
    }
  }

  lemma RefreshRaises(e: Store, s: Store, r: Store, key: Invocation)
    requires GoodEdit(s, e) && RefreshOwned(e, s) == Ok(r) && key in e.entries
    ensures key in r.entries && RecordAtMost(e.entries[key].record, r.entries[key].record)
  {
    RefreshAdvances(e, s, r);
  }

  lemma CommitRaises(w: Widths, e: Store, s: Store, t: Store, key: Invocation)
    requires GoodStore(s) && GoodEdit(s, e) && Commit(w, e, s) == Ok(t) && key in e.entries
    ensures Sound(t) && UniqueIds(t.jobs)
    ensures key in t.entries && RecordAtMost(e.entries[key].record, t.entries[key].record)
  {
    var r, n := CommitStages(w, e, s, t);
    RefreshRaises(e, s, r, key);
    PublishKeeps(e, s, r);
    SavedHolds(w, r, n, t, key);
  }

  /** An update keeps every binding of a job ID to its admission. */
  lemma CommitKeepsBinding(w: Widths, e: Store, s: Store, t: Store)
    requires GoodStore(s) && GoodEdit(s, e) && Commit(w, e, s) == Ok(t)
    ensures CertsKept(e, t) && t.key == s.key && UniqueIds(t.jobs)
  {
    var r, n := CommitStages(w, e, s, t);
    RefreshAdvances(e, s, r);
    PublishKeeps(e, s, r);
    NormalizeKeeps(r, n);
    EvictKeeps(w, n, t);
  }

  /** What a commit shows of bytes that its edit has for the fact that is shown before and after. */
  lemma CommitShows(w: Widths, e: Store, s: Store, t: Store, key: Invocation, p: Published)
    requires GoodStore(s) && GoodEdit(s, e) && Commit(w, e, s) == Ok(t) && key in e.entries
    requires Rises(p.record, e.entries[key].record)
    requires SameShown(p.record, e.entries[key].record) ==> Holds(e, key)
    requires p.output.Some? && p.record.Selected().Some?
    requires OutputMatches(p.output.value, p.record.Selected().value.fact)
    ensures key in t.entries
    ensures SameShown(p.record, t.entries[key].record) && key !in t.historyPruned ==> Export(t, key).output == p.output
  {
    CommitRaises(w, e, s, t, key);
    if SameShown(p.record, t.entries[key].record) && key !in t.historyPruned {
      ShownBetween(p.record, e.entries[key].record, t.entries[key].record);
      CommitHolds(w, e, s, t, key);
      ExportShows(t, key);
    }
  }

  /** Bytes that a page carries are on this machine's own pages once the update with that page is saved, the same
      ones, unless a later fact is shown by then or they were pruned here. */
  lemma LearnedBytesAreShown(w: Widths, s: Store, peer: string, asked: Progress, page: Page, t: Store, i: nat)
    requires GoodStore(s) && LearnPage(s, peer, asked, page).Ok?
    requires Commit(w, LearnPage(s, peer, asked, page).value, s) == Ok(t)
    requires i < |page.entries| && page.entries[i].output.Some?
    requires AuthorsKnown(s, page.entries[i].record.certificate)
    requires page.entries[i].record.certificate.invocation !in t.historyPruned
    ensures var p, key := page.entries[i], page.entries[i].record.certificate.invocation;
      key in t.entries && (SameShown(p.record, t.entries[key].record) ==> Export(t, key).output == p.output)
  {
    var p, key := page.entries[i], page.entries[i].record.certificate.invocation;
    var e := LearnPage(s, peer, asked, page).value;
    Edits.LearnIsGood(s, peer, asked, page, e);
    PrunedStays(w, e, s, t);
    PageIsHeld(s, peer, asked, page, e, i);
    CommitShows(w, e, s, t, key, p);
  }

  lemma PrunedStays(w: Widths, e: Store, s: Store, t: Store)
    requires GoodStore(s) && GoodEdit(s, e) && Commit(w, e, s) == Ok(t)
    ensures s.historyPruned <= t.historyPruned
  {
    CommitKeeps(w, e, s, t);
  }

  lemma PageIsHeld(s: Store, peer: string, asked: Progress, page: Page, e: Store, i: nat)
    requires Sound(s) && UniqueIds(s.jobs) && LearnPage(s, peer, asked, page) == Ok(e)
    requires i < |page.entries| && page.entries[i].output.Some?
    requires AuthorsKnown(s, page.entries[i].record.certificate)
    requires page.entries[i].record.certificate.invocation !in s.historyPruned
    ensures var p, key := page.entries[i], page.entries[i].record.certificate.invocation;
      && ValidPublished(s, p) && key in e.entries && Rises(p.record, e.entries[key].record)
      && (SameShown(p.record, e.entries[key].record) ==> Holds(e, key))
  {
    var unknown := !page.reset && asked.unknown;
    PageHolds(s, page.entries, unknown, i);
    SameBytes(LearnAll(s, page.entries, unknown).value.0, e, page.entries[i].record.certificate.invocation);
  }

  lemma SameBytes(s: Store, t: Store, key: Invocation)
    requires t == s.(progress := t.progress)
    ensures Holds(t, key) <==> Holds(s, key)
  {
    if key in s.entries && s.entries[key].record.Selected().Some? {
      OwnHasStays(s, t, key, s.entries[key].record.Selected().value.fact);
    }
  }

  // ---- A runner's reply

  /** A reply is taken for the job it names, of the machine that sent it: the record is learned, and a row that is not
      finished then says what the runner's fact says and holds the bytes that came with it, unless they are pruned
      here; a row left without bytes that the fact counts gets a receipt. Nothing else changes. */
  lemma ReplyTells(s: Store, peer: string, p: Published, t: Store)
    requires AcceptRunnerReply(s, peer, p) == Ok(t)
    ensures var key := p.record.certificate.invocation;
      key.body == peer && p.record.runner.Some? && ValidRecord(s, p.record)
    ensures JobIndex(s.jobs, p.record.certificate.invocation.id) == |s.jobs| ==> t == s
    ensures var key, i := p.record.certificate.invocation, JobIndex(s.jobs, p.record.certificate.invocation.id);
      i < |s.jobs| ==>
        && key.id in s.certs && s.certs[key.id] == key
        && s.jobs[i].id == key.id && s.jobs[i].from == key.from && s.jobs[i].body == key.body
        && s.jobs[i].argv == key.argv
        && Ingest(s, p).Ok?
        && t == Ingest(s, p).value.(jobs := t.jobs, outputPruned := t.outputPruned)
        && |t.jobs| == |s.jobs| && (forall k :: 0 <= k < |s.jobs| && k != i ==> t.jobs[k] == s.jobs[k])
        && (IsTerminal(s.jobs[i].status) ==> t.jobs == s.jobs && t.outputPruned == s.outputPruned)
        && (!IsTerminal(s.jobs[i].status) ==> RowReplied(s, key, p, t, t.jobs[i]))
  {
    var i := JobIndex(s.jobs, p.record.certificate.invocation.id);
    if i < |s.jobs| && !IsTerminal(s.jobs[i].status) {
      ReplyRowTells(s, peer, p, t);
    }
  }

  lemma ReplyRowTells(s: Store, peer: string, p: Published, t: Store)
    requires AcceptRunnerReply(s, peer, p) == Ok(t)
    requires var i := JobIndex(s.jobs, p.record.certificate.invocation.id);
      i < |s.jobs| && !IsTerminal(s.jobs[i].status)
    ensures p.record.runner.Some? && |t.jobs| == |s.jobs|
    ensures var key := p.record.certificate.invocation;
      RowReplied(s, key, p, t, t.jobs[JobIndex(s.jobs, key.id)])
  {
    var u := Ingest(s, p).value;
    Edits.IngestFrame(s, p);
  }

  /** A reply is turned down exactly when it is not a valid record of that machine's run, or is about another admission
      than the row it names, or cannot be learned. */
  lemma ReplyTakenIff(s: Store, peer: string, p: Published)
    ensures AcceptRunnerReply(s, peer, p).Ok? <==>
      var key, i := p.record.certificate.invocation, JobIndex(s.jobs, p.record.certificate.invocation.id);
      && ValidRecord(s, p.record) && key.body == peer && p.record.runner.Some?
      && (i < |s.jobs| ==>
            && key.id in s.certs && s.certs[key.id] == key
            && s.jobs[i].from == key.from && s.jobs[i].body == key.body && s.jobs[i].argv == key.argv
            && Ingest(s, p).Ok?)
  {
  }

  predicate RowReplied(s: Store, key: Invocation, p: Published, t: Store, row: Job)
    requires p.record.runner.Some?
  {
    var fact := p.record.runner.value.fact;
    && row.id == key.id && row.from == key.from && row.body == key.body && row.argv == key.argv
    && row.status == fact.status
    && if p.output.Some? && key !in s.historyPruned && key.id !in s.outputPruned then
         && row.stdout == p.output.value.stdout && row.stderr == p.output.value.stderr
         && t.outputPruned == s.outputPruned && SignedFor(fact, row.stdout, row.stderr)
       else
         && row.stdout == row.stderr == []
         && t.outputPruned == if fact.stdout.bytes + fact.stderr.bytes > 0 then s.outputPruned + {key.id}
                              else s.outputPruned
  }

  // ---- Nothing is stored twice

  /** The row and the replica of its invocation do not both hold the same bytes. */
  predicate StoredOnce(s: Store, j: Job) {
    j.id in s.certs && BoundTo(s, j, s.certs[j.id]) && j.id !in s.outputPruned ==>
      s.entries[s.certs[j.id]].output != Some(Captured(j.stdout, j.stderr))
  }

  /** What normalizing one row does: where its invocation is pruned, its bytes go, with a receipt if its fact counts
      any; where its replica has the same bytes, the replica goes. */
  lemma NormalizeJobTells(s: Store, i: nat)
    requires i < |s.jobs|
    ensures var t, j := NormalizeJob(s, i), s.jobs[i];
      && t == s.(jobs := s.jobs[i := t.jobs[i]], entries := t.entries, outputPruned := t.outputPruned)
      && (if j.id !in s.certs || !BoundTo(s, j, s.certs[j.id]) then t == s
          else
            var key := s.certs[j.id];
            var selected := s.entries[key].record.Selected();
            if key in s.historyPruned then
              && t.jobs[i] == j.(stdout := [], stderr := []) && t.entries == s.entries
              && t.outputPruned
                   == (if selected.Some? && selected.value.fact.stdout.bytes + selected.value.fact.stderr.bytes > 0
                       then s.outputPruned + {j.id} else s.outputPruned)
            else
              && t.jobs[i] == j && t.outputPruned == s.outputPruned
              && t.entries == (if StoredOnce(s, j) then s.entries
                               else s.entries[key := s.entries[key].(output := None)]))
  {
  }

  predicate PrunedIsGone(s: Store) {
    forall k :: k in s.historyPruned && k in s.entries ==> s.entries[k].output.None?
  }

  lemma NormalizeJobStoresOnce(s: Store, i: nat)
    requires i < |s.jobs| && PrunedIsGone(s)
    ensures var t := NormalizeJob(s, i);
      && PrunedIsGone(t) && |t.jobs| == |s.jobs| && StoredOnce(t, t.jobs[i])
      && forall m :: 0 <= m < |s.jobs| && m != i ==>
           t.jobs[m] == s.jobs[m] && (StoredOnce(s, s.jobs[m]) ==> StoredOnce(t, t.jobs[m]))
  {
    NormalizeJobTells(s, i);
  }

  lemma {:induction false} NormalizeJobsStoreOnce(s: Store, i: nat, t: Store)
    requires i <= |s.jobs| && t == NormalizeJobs(s, i) && PrunedIsGone(s)
    requires forall m :: 0 <= m < i ==> StoredOnce(s, s.jobs[m])
    ensures forall m :: 0 <= m < |t.jobs| ==> StoredOnce(t, t.jobs[m])
    decreases |s.jobs| - i
  {
    if i < |s.jobs| {
      NormalizeJobStoresOnce(s, i);
      NormalizeJobsStoreOnce(NormalizeJob(s, i), i + 1, t);
    }
  }

  lemma RemovalStoresOnce(s: Store, k: Invocation, t: Store)
    requires k in s.entries && RemovePayload(s, k) == Ok(t)
    requires forall m :: 0 <= m < |s.jobs| ==> StoredOnce(s, s.jobs[m])
    ensures forall m :: 0 <= m < |t.jobs| ==> StoredOnce(t, t.jobs[m])
  {
    RemovalShape(s, k);
    forall m | 0 <= m < |t.jobs| ensures StoredOnce(t, t.jobs[m]) {
      assert StoredOnce(s, s.jobs[m]);
    }
  }

  lemma {:induction false} EvictionStoresOnce(s: Store, keys: seq<Invocation>, t: Store)
    requires (forall k :: k in keys ==> k in s.entries) && EvictFrom(s, keys) == Ok(t)
    requires forall m :: 0 <= m < |s.jobs| ==> StoredOnce(s, s.jobs[m])
    ensures forall m :: 0 <= m < |t.jobs| ==> StoredOnce(t, t.jobs[m])
    decreases |keys|
  {
    if OutputBytes(s) > OUTPUT_BYTES {
      var u := RemovePayload(s, keys[0]).value;
      RemovalShape(s, keys[0]);
      RemovalStoresOnce(s, keys[0], u);
      EvictionStoresOnce(u, keys[1..], t);
    }
  }

  /** Whatever an update commits, no captured bytes are saved both in a row and in the replica of its invocation. */
  lemma CommitStoresOnce(w: Widths, e: Store, s: Store, t: Store)
    requires Commit(w, e, s) == Ok(t)
    ensures forall m :: 0 <= m < |t.jobs| ==> StoredOnce(t, t.jobs[m])
  {
    var r, n := CommitStages(w, e, s, t);
    NormalizeJobsStoreOnce(ForgetPruned(r), 0, n);
    EvictionStoresOnce(n, Candidates(n), t);
  }
}
