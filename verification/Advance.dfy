/** What every history operation keeps, and how it may move a store forward. */
module Advance {
  import opened Types
  import opened History

  ghost predicate FactAtMost(a: Option<SignedFact>, b: Option<SignedFact>) {
    a.Some? ==> b.Some? && a.value.fact.revision <= b.value.fact.revision
  }

  ghost predicate RecordAtMost(a: Record, b: Record) {
    a.certificate == b.certificate && FactAtMost(a.origin, b.origin) && FactAtMost(a.runner, b.runner)
  }

  ghost predicate SamePlace(a: Entry, b: Entry) {
    a.record == b.record && a.change == b.change
  }

  type Entries = map<Invocation, Entry>

  /** Entries only grow, facts only rise, and whatever a neighbour must fetch again is moved above
      the old clock. */
  ghost predicate Moved(clock: nat, entries: Entries, clock': nat, entries': Entries) {
    && clock <= clock'
    && (forall k :: k in entries ==> k in entries' && RecordAtMost(entries[k].record, entries'[k].record))
    && (forall k :: k in entries' ==>
          (k in entries && SamePlace(entries[k], entries'[k])) || clock < entries'[k].change <= clock')
  }

  ghost predicate Advances(s: Store, t: Store) {
    && t.name == s.name && t.key == s.key && t.epoch == s.epoch
    && Moved(s.clock, s.entries, t.clock, t.entries)
    && s.historyPruned <= t.historyPruned && s.outputPruned <= t.outputPruned
  }

  /** Entries sit under their own invocation, at pairwise different places from 1 to the clock, and hold
      only bytes that match the fact shown for them. */
  ghost predicate SoundEntries(clock: nat, entries: Entries) {
    && clock <= MAX_U64
    && (forall k :: k in entries ==>
          entries[k].record.certificate.invocation == k && 0 < entries[k].change <= clock && Genuine(entries[k]))
    && (forall k, l :: k in entries && l in entries && k != l ==> entries[k].change != entries[l].change)
  }

  ghost predicate SoundCerts(entries: Entries, certs: map<string, Invocation>) {
    forall id :: id in certs ==> certs[id].id == id && certs[id] in entries
  }

  ghost predicate Sound(s: Store) {
    SoundEntries(s.clock, s.entries) && SoundCerts(s.entries, s.certs)
  }

  ghost predicate Genuine(e: Entry) {
    e.output.Some? ==> e.record.Selected().Some? && OutputMatches(e.output.value, e.record.Selected().value.fact)
  }

  /** A job row this machine takes part in without a signed admission is new: no entry has its ID. */
  ghost predicate FreshJob(s: Store, j: Job) {
    j.id !in s.certs ==> forall k :: k in s.entries ==> k.id != j.id
  }

  lemma MovedTransitive(c0: nat, e0: Entries, c1: nat, e1: Entries, c2: nat, e2: Entries)
    requires Moved(c0, e0, c1, e1) && Moved(c1, e1, c2, e2)
    ensures Moved(c0, e0, c2, e2)
  {
    forall k | k in e2
      ensures (k in e0 && SamePlace(e0[k], e2[k])) || c0 < e2[k].change <= c2
    {
      if k in e1 && SamePlace(e1[k], e2[k]) {
        assert (k in e0 && SamePlace(e0[k], e1[k])) || c0 < e1[k].change <= c1;
      }
    }
  }

  lemma AdvancesTransitive(a: Store, b: Store, c: Store)
    requires Advances(a, b) && Advances(b, c)
    ensures Advances(a, c)
  {
    MovedTransitive(a.clock, a.entries, b.clock, b.entries, c.clock, c.entries);
  }

  lemma AdvancesReflexive(s: Store)
    ensures Advances(s, s)
  {
  }

  /** Storing an entry at a fresh place is an advance as long as its facts do not fall back. */
  lemma PutMoves(clock: nat, entries: Entries, k: Invocation, e: Entry)
    requires SoundEntries(clock, entries) && clock < MAX_U64
    requires e.change == clock + 1 && e.record.certificate.invocation == k && Genuine(e)
    requires k in entries ==> RecordAtMost(entries[k].record, e.record)
    ensures Moved(clock, entries, clock + 1, entries[k := e]) && SoundEntries(clock + 1, entries[k := e])
  {
  }

  lemma MergeRises(existing: Option<SignedFact>, incoming: Option<SignedFact>)
    requires MergeFact(existing, incoming).Ok?
    ensures FactAtMost(existing, MergeFact(existing, incoming).value)
    ensures FactAtMost(incoming, MergeFact(existing, incoming).value)
  {
  }

  /** Learning leaves the store alone or stores the merged record at a fresh place. */
  lemma IngestShape(s: Store, p: Published, t: Store)
    requires Ingest(s, p) == Ok(t)
    ensures var key, before := p.record.certificate.invocation, EntryOrNew(s, p.record.certificate).record;
      && key in t.entries && MergeRecord(before, p.record) == Ok(t.entries[key].record)
      && (t == s || (s.clock < MAX_U64 && t.entries[key].change == s.clock + 1 && Genuine(t.entries[key])
                     && t == s.(clock := s.clock + 1, entries := s.entries[key := t.entries[key]])))
  {
  }

  lemma IngestAdvances(s: Store, p: Published)
    requires Sound(s) && Ingest(s, p).Ok?
    ensures var t := Ingest(s, p).value;
      && Advances(s, t) && Sound(t)
      && p.record.certificate.invocation in t.entries
      && RecordAtMost(p.record, t.entries[p.record.certificate.invocation].record)
      && t == s.(clock := t.clock, entries := t.entries)
  {
    var t := Ingest(s, p).value;
    var key := p.record.certificate.invocation;
    var before := EntryOrNew(s, p.record.certificate);
    IngestShape(s, p, t);
    MergeRises(before.record.origin, p.record.origin);
    MergeRises(before.record.runner, p.record.runner);
    if t != s {
      PutMoves(s.clock, s.entries, key, t.entries[key]);
    }
  }

  lemma CertsGrow(entries: Entries, entries': Entries, certs: map<string, Invocation>, key: Invocation)
    requires SoundCerts(entries, certs) && entries.Keys <= entries'.Keys && key in entries'
    ensures SoundCerts(entries', certs[key.id := key])
  {
  }

  lemma BindAdvances(s: Store, c: Certificate)
    requires Sound(s) && BindAdmission(s, c).Ok?
    ensures var t := BindAdmission(s, c).value;
      Advances(s, t) && Sound(t) && c.invocation in t.entries && t.certs == s.certs[c.invocation.id := c.invocation]
  {
    var t := BindAdmission(s, c).value;
    var key := c.invocation;
    if key !in s.entries {
      PutMoves(s.clock, s.entries, key, t.entries[key]);
    }
    CertsGrow(s.entries, t.entries, s.certs, key);
  }

  lemma ReplyShape(s: Store, peer: string, p: Published)
    requires AcceptRunnerReply(s, peer, p).Ok?
    ensures var t := AcceptRunnerReply(s, peer, p).value;
      || t == s
      || (Ingest(s, p).Ok? && var u := Ingest(s, p).value;
            t == u.(jobs := t.jobs, outputPruned := t.outputPruned) && u.outputPruned <= t.outputPruned)
  {
  }

  lemma ReplyAdvances(s: Store, peer: string, p: Published)
    requires Sound(s) && AcceptRunnerReply(s, peer, p).Ok?
    ensures var t := AcceptRunnerReply(s, peer, p).value; Advances(s, t) && Sound(t)
  {
    ReplyShape(s, peer, p);
    if AcceptRunnerReply(s, peer, p).value != s {
      IngestAdvances(s, p);
    }
  }

  lemma CertifyShape(s: Store, previous: seq<Job>, j: Job, t: Store) returns (c: Certificate)
    requires Certify(s, previous, j) == Ok(t)
    ensures j.id in s.certs ==> t == s
    ensures j.id !in s.certs ==>
      && c.invocation.id == j.id && s.clock < MAX_U64
      && t == s.(clock := s.clock + 1,
                 entries := s.entries[c.invocation := Entry(Record(c, None, None), s.clock + 1, None)],
                 certs := s.certs[j.id := c.invocation])
  {
    if j.id in s.certs {
      c := *;
    } else {
      c := CertificateFor(s, j).value;
    }
  }

  lemma CertifyAdvances(s: Store, previous: seq<Job>, j: Job, t: Store)
    requires Sound(s) && FreshJob(s, j) && Certify(s, previous, j) == Ok(t)
    ensures Advances(s, t) && Sound(t) && j.id in t.certs
    ensures t == s.(clock := t.clock, entries := t.entries, certs := t.certs)
    ensures forall id :: id in s.certs ==> id in t.certs && t.certs[id] == s.certs[id]
    ensures forall k :: k in t.entries ==> k in s.entries || k.id == j.id
  {
    var c := CertifyShape(s, previous, j, t);
    if j.id !in s.certs {
      PutMoves(s.clock, s.entries, c.invocation, t.entries[c.invocation]);
      CertsGrow(s.entries, t.entries, s.certs, c.invocation);
    } else {
      AdvancesReflexive(s);
    }
  }

  lemma WriteAdvances(s: Store, j: Job, role: Role, digests: (OutputRef, OutputRef), t: Store)
    requires Sound(s) && j.id in s.certs && s.certs[j.id] in s.entries
    requires WriteFact(s, j, role, digests) == Ok(t)
    ensures Advances(s, t) && Sound(t) && t == s.(clock := t.clock, entries := t.entries)
    ensures t.entries.Keys == s.entries.Keys
    ensures t.entries[s.certs[j.id]].record.certificate == s.entries[s.certs[j.id]].record.certificate
  {
    var key := s.certs[j.id];
    PutMoves(s.clock, s.entries, key, t.entries[key]);
  }

  /** A publication certifies the job, then leaves it or writes one fact, never over a terminal one. */
  lemma PublishStages(s: Store, previous: seq<Job>, j: Job, t: Store) returns (u: Store)
    requires PublishJob(s, previous, j) == Ok(t) && (j.from == s.name || j.body == s.name)
    ensures Certify(s, previous, j) == Ok(u) && j.id in u.certs && BoundTo(u, j, u.certs[j.id])
  {
    u := Certify(s, previous, j).value;
  }

  lemma PublishWrites(s: Store, previous: seq<Job>, j: Job, u: Store, t: Store)
    requires PublishJob(s, previous, j) == Ok(t) && (j.from == s.name || j.body == s.name)
    requires Certify(s, previous, j) == Ok(u) && t != u
    ensures j.id in u.certs && u.certs[j.id] in u.entries && OwnRole(u.name, j).Some?
    ensures var record, role := u.entries[u.certs[j.id]].record, OwnRole(u.name, j).value;
      && MatchesJob(record.certificate, j)
      && DigestsFor(u, j, role, FactIn(record, role)).Ok?
      && WriteFact(u, j, role, DigestsFor(u, j, role, FactIn(record, role)).value) == Ok(t)
      && (FactIn(record, role).Some? ==> !IsTerminal(FactIn(record, role).value.fact.status))
  {
  }

  lemma PublishJobAdvances(s: Store, previous: seq<Job>, j: Job, t: Store)
    requires Sound(s) && FreshJob(s, j) && PublishJob(s, previous, j) == Ok(t)
    ensures Advances(s, t) && Sound(t)
    ensures t == s.(clock := t.clock, entries := t.entries, certs := t.certs)
    ensures forall id :: id in s.certs ==> id in t.certs && t.certs[id] == s.certs[id]
    ensures forall k :: k in t.entries ==> k in s.entries || k.id == j.id
    ensures j.from == s.name || j.body == s.name ==> j.id in t.certs && BoundTo(t, j, t.certs[j.id])
  {
    if j.from == s.name || j.body == s.name {
      var u := PublishStages(s, previous, j, t);
      CertifyAdvances(s, previous, j, u);
      if t != u {
        PublishWrites(s, previous, j, u, t);
        var role := OwnRole(u.name, j).value;
        WriteAdvances(u, j, role, DigestsFor(u, j, role, FactIn(u.entries[u.certs[j.id]].record, role)).value, t);
        AdvancesTransitive(s, u, t);
      }
    } else {
      AdvancesReflexive(s);
    }
  }

  ghost predicate FreshJobs(s: Store, jobs: seq<Job>) {
    && UniqueIds(jobs)
    && forall i :: 0 <= i < |jobs| ==> FreshJob(s, jobs[i])
  }

  lemma {:induction false} PublishJobsAdvance(s: Store, previous: seq<Job>, changed: seq<Job>)
    requires Sound(s) && FreshJobs(s, changed) && PublishJobs(s, previous, changed).Ok?
    ensures var t := PublishJobs(s, previous, changed).value;
      && Advances(s, t) && Sound(t)
      && t == s.(clock := t.clock, entries := t.entries, certs := t.certs)
      && (forall id :: id in s.certs ==> id in t.certs && t.certs[id] == s.certs[id])
      && (forall j :: j in changed && (j.from == s.name || j.body == s.name) ==>
            j.id in t.certs && BoundTo(t, j, t.certs[j.id]))
    decreases |changed|
  {
    if changed == [] {
    } else {
      var j, rest := changed[0], changed[1..];
      var u := PublishJob(s, previous, j).value;
      PublishJobAdvances(s, previous, j, u);
      assert FreshJobs(u, rest) by {
        forall i | 0 <= i < |rest| ensures FreshJob(u, rest[i]) {
          assert rest[i] == changed[i + 1];
          assert FreshJob(s, changed[i + 1]);
        }
      }
      PublishJobsAdvance(u, previous, rest);
      var t := PublishJobs(u, previous, rest).value;
      AdvancesTransitive(s, u, t);
      assert forall x :: x in changed ==> x == j || x in rest;
    }
  }
}
