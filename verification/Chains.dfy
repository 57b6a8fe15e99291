/** The chain of facts each author writes for an invocation, and how merging follows it. */
module Chains {
  import opened Types
  import opened History
  import opened Advance
  import Publication

  datatype Slot = Slot(key: Invocation, role: Role)

  /** For every slot, the facts its author has written so far, oldest first. */
  type Written = Slot -> seq<SignedFact>

  function AuthorKey(x: Slot): PublicKey {
    if x.role.Origin? then x.key.originKey else x.key.runnerKey
  }

  /** Revisions 1, 2, 3, …, signed by the author, of which only the last may be terminal. */
  ghost predicate IsChain(x: Slot, facts: seq<SignedFact>) {
    forall i :: 0 <= i < |facts| ==>
      && facts[i].fact.invocation == x.key && facts[i].fact.role == x.role
      && facts[i].fact.revision == i + 1
      && facts[i].signature == Signed(AuthorKey(x), Statement(facts[i].fact))
      && (i + 1 < |facts| ==> !IsTerminal(facts[i].fact.status))
  }

  ghost predicate AllChains(written: Written) {
    forall x :: IsChain(x, written(x))
  }

  function Held(entries: Entries, x: Slot): Option<SignedFact> {
    if x.key in entries then FactIn(entries[x.key].record, x.role) else None
  }

  function Admitted(key: Invocation): Certificate {
    Certificate(key, Signed(key.originKey, Admission(key)))
  }

  /** Everything stored was written by its author. */
  ghost predicate Authentic(written: Written, entries: Entries) {
    && (forall k :: k in entries ==> entries[k].record.certificate == Admitted(k))
    && (forall x :: Held(entries, x).Some? ==> Held(entries, x).value in written(x))
  }

  predicate Owns(name: string, key: PublicKey, x: Slot) {
    if x.role.Runner? then x.key.body == name && x.key.runnerKey == key
    else x.key.from == name && x.key.originKey == key
  }

  ghost predicate OwnKeys(name: string, key: PublicKey, entries: Entries) {
    forall k :: k in entries ==> (k.body == name ==> k.runnerKey == key) && (k.from == name ==> k.originKey == key)
  }

  function LastOf(facts: seq<SignedFact>): Option<SignedFact> {
    if facts == [] then None else Some(facts[|facts| - 1])
  }

  /** The author's own copy is the end of its chain. */
  ghost predicate Leads(written: Written, name: string, key: PublicKey, entries: Entries) {
    forall x :: Owns(name, key, x) ==> Held(entries, x) == LastOf(written(x))
  }

  // ---- Merging

  function Highest(a: Option<SignedFact>, b: Option<SignedFact>): Option<SignedFact> {
    if b.None? || (a.Some? && b.value.fact.revision <= a.value.fact.revision) then a else b
  }

  lemma ChainPlace(x: Slot, facts: seq<SignedFact>, f: SignedFact) returns (i: nat)
    requires IsChain(x, facts) && f in facts
    ensures i < |facts| && facts[i] == f && f.fact.revision == i + 1
  {
    i :| 0 <= i < |facts| && facts[i] == f;
  }

  /** Two facts of one chain always merge, to the later one. */
  lemma MergeIsHighest(x: Slot, facts: seq<SignedFact>, a: Option<SignedFact>, b: Option<SignedFact>)
    requires IsChain(x, facts) && (a.Some? ==> a.value in facts) && (b.Some? ==> b.value in facts)
    ensures MergeFact(a, b) == Ok(Highest(a, b))
  {
    if a.Some? && b.Some? {
      var i := ChainPlace(x, facts, a.value);
      var j := ChainPlace(x, facts, b.value);
    }
  }

  /** The facts of a received record were written by their authors, or are forged. */
  ghost predicate Carried(written: Written, r: Record) {
    forall role :: FactIn(r, role).Some? ==>
      var f := FactIn(r, role).value;
      f.signature.Forged? || f in written(Slot(f.fact.invocation, f.fact.role))
  }

  lemma ValidIsWritten(written: Written, s: Store, r: Record, role: Role)
    requires Carried(written, r) && ValidRecord(s, r) && FactIn(r, role).Some?
    ensures FactIn(r, role).value in written(Slot(r.certificate.invocation, role))
    ensures r.certificate == Admitted(r.certificate.invocation)
  {
  }

  lemma IngestMerges(written: Written, s: Store, p: Published)
    requires AllChains(written) && Authentic(written, s.entries)
    requires Carried(written, p.record) && ValidRecord(s, p.record)
    ensures var key := p.record.certificate.invocation;
      MergeRecord(EntryOrNew(s, p.record.certificate).record, p.record)
      == Ok(Record(Admitted(key), Highest(Held(s.entries, Slot(key, Origin)), p.record.origin),
                   Highest(Held(s.entries, Slot(key, Runner)), p.record.runner)))
  {
    var key := p.record.certificate.invocation;
    forall role: Role | true
      ensures MergeFact(Held(s.entries, Slot(key, role)), FactIn(p.record, role))
           == Ok(Highest(Held(s.entries, Slot(key, role)), FactIn(p.record, role)))
    {
      if FactIn(p.record, role).Some? {
        ValidIsWritten(written, s, p.record, role);
      }
      MergeIsHighest(Slot(key, role), written(Slot(key, role)), Held(s.entries, Slot(key, role)),
          FactIn(p.record, role));
    }
    assert FactIn(p.record, Origin) == p.record.origin && FactIn(p.record, Runner) == p.record.runner;
    var before := EntryOrNew(s, p.record.certificate).record;
    assert before.origin == Held(s.entries, Slot(key, Origin)) && before.runner == Held(s.entries, Slot(key, Runner));
    assert before.certificate == p.record.certificate by {
      assert key in s.entries ==> s.entries[key].record.certificate == Admitted(key);
    }
  }

  /** Learning a record that its authors wrote fails only if it does not validate here or the change
      counter is used up. */
  lemma IngestFailsIff(written: Written, s: Store, p: Published)
    requires AllChains(written) && Authentic(written, s.entries) && Carried(written, p.record)
    ensures s.clock < MAX_U64 ==> (Ingest(s, p).Ok? <==> ValidPublished(s, p))
  {
    if ValidPublished(s, p) {
      IngestMerges(written, s, p);
    }
  }

  ghost predicate MergedAt(e: Entries, e': Entries, key: Invocation, r: Record) {
    && e'.Keys == e.Keys + {key}
    && (forall x :: Held(e', x) == if x.key == key then Highest(Held(e, x), FactIn(r, x.role)) else Held(e, x))
  }

  lemma IngestFollows(written: Written, s: Store, p: Published, t: Store)
    requires AllChains(written) && Authentic(written, s.entries) && Carried(written, p.record)
    requires Ingest(s, p) == Ok(t)
    ensures Authentic(written, t.entries)
    ensures MergedAt(s.entries, t.entries, p.record.certificate.invocation, p.record)
    ensures OwnKeys(s.name, s.key, s.entries) ==> OwnKeys(s.name, s.key, t.entries)
  {
    var key := p.record.certificate.invocation;
    IngestMerges(written, s, p);
    IngestEntry(s, p, t);
    assert MergedAt(s.entries, t.entries, key, p.record);
    forall x | Held(t.entries, x).Some? ensures Held(t.entries, x).value in written(x) {
      if x.key == key && FactIn(p.record, x.role).Some? {
        ValidIsWritten(written, s, p.record, x.role);
      }
    }
  }

  lemma IngestEntry(s: Store, p: Published, t: Store)
    requires Ingest(s, p) == Ok(t)
    ensures var key := p.record.certificate.invocation;
      && ValidRecord(s, p.record) && key in t.entries
      && t.entries == s.entries[key := t.entries[key]]
      && MergeRecord(EntryOrNew(s, p.record.certificate).record, p.record) == Ok(t.entries[key].record)
  {
  }

  /** What an author already leads, no relayed copy of its own facts can move. */
  lemma OwnSlotsStay(written: Written, s: Store, p: Published, t: Store, x: Slot)
    requires AllChains(written) && Authentic(written, s.entries) && Carried(written, p.record)
    requires Ingest(s, p) == Ok(t) && Held(s.entries, x) == LastOf(written(x))
    ensures Held(t.entries, x) == Held(s.entries, x)
  {
    IngestFollows(written, s, p, t);
    var key := p.record.certificate.invocation;
    if x.key == key && FactIn(p.record, x.role).Some? {
      ValidIsWritten(written, s, p.record, x.role);
      var i := ChainPlace(x, written(x), FactIn(p.record, x.role).value);
    }
  }

  // ---- Publishing

  /** One author's step along a chain: nothing, or the next revision after one that was not terminal. */
  ghost predicate NextFact(x: Slot, a: Option<SignedFact>, b: Option<SignedFact>) {
    || b == a
    || (&& b.Some? && b.value.fact.invocation == x.key && b.value.fact.role == x.role
        && b.value.signature == Signed(AuthorKey(x), Statement(b.value.fact))
        && b.value.fact.revision == (if a.Some? then a.value.fact.revision else 0) + 1
        && (a.Some? ==> !IsTerminal(a.value.fact.status)))
  }

  ghost predicate Wrote(name: string, key: PublicKey, e: Entries, e': Entries) {
    forall x :: NextFact(x, Held(e, x), Held(e', x)) && (Held(e', x) != Held(e, x) ==> Owns(name, key, x))
  }

  ghost predicate Elsewhere(e: Entries, e': Entries, ids: set<string>) {
    forall k: Invocation :: k.id !in ids ==> (k in e' <==> k in e) && (k in e ==> e'[k] == e[k])
  }

  ghost predicate Certificates(name: string, key: PublicKey, entries: Entries) {
    OwnKeys(name, key, entries) && forall k :: k in entries ==> entries[k].record.certificate == Admitted(k)
  }

  lemma CertifySlots(s: Store, previous: seq<Job>, j: Job, t: Store)
    requires Sound(s) && FreshJob(s, j) && Certificates(s.name, s.key, s.entries) && Certify(s, previous, j) == Ok(t)
    ensures forall x :: Held(t.entries, x) == Held(s.entries, x)
    ensures Elsewhere(s.entries, t.entries, {j.id}) && Certificates(s.name, s.key, t.entries)
  {
  }

  lemma WriteSlots(s: Store, j: Job, role: Role, digests: (OutputRef, OutputRef), t: Store)
    requires Sound(s) && Certificates(s.name, s.key, s.entries)
    requires j.id in s.certs && s.certs[j.id] in s.entries && OwnRole(s.name, j) == Some(role)
    requires MatchesJob(s.entries[s.certs[j.id]].record.certificate, j) && WriteFact(s, j, role, digests) == Ok(t)
    requires FactIn(s.entries[s.certs[j.id]].record, role).Some? ==>
      !IsTerminal(FactIn(s.entries[s.certs[j.id]].record, role).value.fact.status)
    ensures Wrote(s.name, s.key, s.entries, t.entries)
    ensures Elsewhere(s.entries, t.entries, {j.id}) && Certificates(s.name, s.key, t.entries)
  {
    var key := s.certs[j.id];
    forall x | true
      ensures NextFact(x, Held(s.entries, x), Held(t.entries, x))
      ensures Held(t.entries, x) != Held(s.entries, x) ==> Owns(s.name, s.key, x)
    {
      if x != Slot(key, role) {
        assert Held(t.entries, x) == Held(s.entries, x);
      }
    }
  }

  lemma PublishJobSlots(s: Store, previous: seq<Job>, j: Job, t: Store)
    requires Sound(s) && FreshJob(s, j) && Certificates(s.name, s.key, s.entries) && PublishJob(s, previous, j) == Ok(t)
    ensures Wrote(s.name, s.key, s.entries, t.entries)
    ensures Elsewhere(s.entries, t.entries, {j.id}) && Certificates(s.name, s.key, t.entries)
  {
    if j.from == s.name || j.body == s.name {
      var u := Certify(s, previous, j).value;
      CertifyAdvances(s, previous, j, u);
      CertifySlots(s, previous, j, u);
      if t != u {
        PublishWrites(s, previous, j, u, t);
        var role := OwnRole(u.name, j).value;
        var digests := DigestsFor(u, j, role, FactIn(u.entries[u.certs[j.id]].record, role)).value;
        WriteSlots(u, j, role, digests, t);
      }
    }
  }

  function Ids(jobs: seq<Job>): set<string> {
    set j | j in jobs :: j.id
  }

  lemma WroteOnce(name: string, key: PublicKey, e0: Entries, e1: Entries, e2: Entries, id: string, ids: set<string>)
    requires Wrote(name, key, e0, e1) && Elsewhere(e0, e1, {id})
    requires Wrote(name, key, e1, e2) && Elsewhere(e1, e2, ids) && id !in ids
    ensures Wrote(name, key, e0, e2) && Elsewhere(e0, e2, ids + {id})
  {
    forall x | true
      ensures NextFact(x, Held(e0, x), Held(e2, x)) && (Held(e2, x) != Held(e0, x) ==> Owns(name, key, x))
    {
      if x.key.id == id {
        assert Held(e2, x) == Held(e1, x);
      } else {
        assert Held(e1, x) == Held(e0, x);
      }
    }
  }

  lemma {:induction false} PublishJobsSlots(s: Store, previous: seq<Job>, changed: seq<Job>, t: Store)
    requires Sound(s) && FreshJobs(s, changed) && Certificates(s.name, s.key, s.entries)
    requires PublishJobs(s, previous, changed) == Ok(t)
    ensures Wrote(s.name, s.key, s.entries, t.entries)
    ensures Elsewhere(s.entries, t.entries, Ids(changed)) && Certificates(s.name, s.key, t.entries)
    decreases |changed|
  {
    if changed != [] {
      var j, rest := changed[0], changed[1..];
      var u := Publication.PublishStep(s, previous, changed);
      PublishJobSlots(s, previous, j, u);
      PublishJobsSlots(u, previous, rest, t);
      assert j.id !in Ids(rest) by {
        forall m | 0 <= m < |rest| ensures rest[m].id != j.id {
          assert rest[m] == changed[m + 1];
        }
      }
      assert Ids(changed) == Ids(rest) + {j.id} by {
        assert changed == [j] + rest;
      }
      WroteOnce(s.name, s.key, s.entries, u.entries, t.entries, j.id, Ids(rest));
    }
  }
}
