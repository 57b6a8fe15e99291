/** Publishing only what changed agrees with publishing everything, exactly while every row that an
    update leaves alone already agreed. */
module Publication {
  import opened Types
  import opened History
  import opened Advance
  import opened Update

  predicate RunHere(s: Store, j: Job) {
    j.body == s.name && !j.status.Queued? && !j.status.WaitingCapacity?
  }

  predicate FactSaysRow(f: Fact, pruned: set<string>, j: Job) {
    f.status == j.status && (j.id !in pruned ==> OutputMatches(OutputOfJob(j), f))
  }

  /** A job run here and past queueing has a runner fact with its status and its output's digests. */
  predicate Agrees(s: Store, j: Job) {
    RunHere(s, j) ==>
      && j.id in s.certs && s.certs[j.id] in s.entries
      && s.entries[s.certs[j.id]].record.runner.Some?
      && FactSaysRow(s.entries[s.certs[j.id]].record.runner.value.fact, s.outputPruned, j)
  }

  /** The row may still be published: nothing terminal is signed for it, or it is signed already. */
  predicate Publishable(s: Store, j: Job) {
    (RunHere(s, j) && j.id in s.certs && s.certs[j.id] in s.entries
     && s.entries[s.certs[j.id]].record.runner.Some?)
    ==> var f := s.entries[s.certs[j.id]].record.runner.value.fact;
        !IsTerminal(f.status) || FactSaysRow(f, s.outputPruned, j)
  }

  /** What the outcome for one row depends on. */
  predicate SameRowState(s: Store, t: Store, j: Job) {
    && t.name == s.name && t.outputPruned == s.outputPruned
    && (j.id in t.certs <==> j.id in s.certs)
    && (j.id in s.certs ==>
          && t.certs[j.id] == s.certs[j.id]
          && (t.certs[j.id] in t.entries <==> s.certs[j.id] in s.entries)
          && (s.certs[j.id] in s.entries ==> t.entries[t.certs[j.id]] == s.entries[s.certs[j.id]]))
  }

  lemma WriteTouchesOne(s: Store, j: Job, role: Role, digests: (OutputRef, OutputRef), t: Store, other: Job)
    requires SoundCerts(s.entries, s.certs) && other.id != j.id
    requires j.id in s.certs && s.certs[j.id] in s.entries && WriteFact(s, j, role, digests) == Ok(t)
    ensures SameRowState(s, t, other)
  {
  }

  lemma CertifyTouchesOne(s: Store, previous: seq<Job>, j: Job, t: Store, other: Job)
    requires SoundCerts(s.entries, s.certs) && other.id != j.id && Certify(s, previous, j) == Ok(t)
    ensures SameRowState(s, t, other) && SoundCerts(t.entries, t.certs) && t.name == s.name
  {
  }

  lemma PublishTouchesOne(s: Store, previous: seq<Job>, j: Job, t: Store, other: Job)
    requires SoundCerts(s.entries, s.certs) && PublishJob(s, previous, j) == Ok(t) && other.id != j.id
    ensures SameRowState(s, t, other)
  {
    if Ours(s, j) {
      var u := Certify(s, previous, j).value;
      CertifyTouchesOne(s, previous, j, u, other);
      if t != u {
        PublishWrites(s, previous, j, u, t);
        var role := OwnRole(u.name, j).value;
        WriteTouchesOne(u, j, role, DigestsFor(u, j, role, FactIn(u.entries[u.certs[j.id]].record, role)).value, t,
            other);
      }
    }
  }

  lemma WrittenRowAgrees(u: Store, j: Job, digests: (OutputRef, OutputRef), t: Store)
    requires j.id in u.certs && u.certs[j.id] in u.entries && WriteFact(u, j, Runner, digests) == Ok(t)
    requires j.id !in u.outputPruned ==> digests == (OutputOf(j.stdout), OutputOf(j.stderr))
    ensures Agrees(t, j)
  {
  }

  lemma CertifiedRowSame(s: Store, previous: seq<Job>, j: Job, u: Store)
    requires Certify(s, previous, j) == Ok(u)
    ensures u.name == s.name && u.outputPruned == s.outputPruned
    ensures j.id in s.certs ==> u == s
    ensures j.id !in s.certs && j.id in u.certs && u.certs[j.id] in u.entries ==>
      u.entries[u.certs[j.id]].record.runner.None?
  {
  }

  /** A publication that certifies and writes nothing finds the row said already, or a terminal fact. */
  lemma SilentRow(s: Store, previous: seq<Job>, j: Job, u: Store)
    requires Ours(s, j) && PublishJob(s, previous, j) == Ok(u) && Certify(s, previous, j) == Ok(u) && RunHere(s, j)
    ensures j.id in u.certs && u.certs[j.id] in u.entries && u.entries[u.certs[j.id]].record.runner.Some?
    ensures var f := u.entries[u.certs[j.id]].record.runner.value.fact;
      IsTerminal(f.status) || FactSaysRow(f, u.outputPruned, j)
  {
  }

  lemma PublishedRowAgrees(s: Store, previous: seq<Job>, j: Job, t: Store)
    requires Ours(s, j) && PublishJob(s, previous, j) == Ok(t)
    ensures Agrees(t, j) <==> Publishable(s, j)
  {
    if RunHere(s, j) {
      var u := PublishStages(s, previous, j, t);
      CertifiedRowSame(s, previous, j, u);
      if t == u {
        SilentRow(s, previous, j, u);
      } else {
        PublishWrites(s, previous, j, u, t);
        var written := FactIn(u.entries[u.certs[j.id]].record, Runner);
        var digests := DigestsFor(u, j, Runner, written).value;
        WrittenRowAgrees(u, j, digests, t);
      }
    } else {
      FrameOfPublish(s, previous, j, t);
    }
  }

  lemma FrameOfPublish(s: Store, previous: seq<Job>, j: Job, t: Store)
    requires PublishJob(s, previous, j) == Ok(t)
    ensures t.name == s.name
  {
  }

  lemma {:induction false} UntouchedRow(s: Store, previous: seq<Job>, changed: seq<Job>, t: Store, j: Job)
    requires Sound(s) && FreshJobs(s, changed) && PublishJobs(s, previous, changed) == Ok(t)
    requires forall m :: 0 <= m < |changed| ==> changed[m].id != j.id
    ensures SameRowState(s, t, j)
    decreases |changed|
  {
    if changed != [] {
      var u := PublishStep(s, previous, changed);
      PublishTouchesOne(s, previous, changed[0], u, j);
      UntouchedRow(u, previous, changed[1..], t, j);
    }
  }

  lemma PublishStep(s: Store, previous: seq<Job>, changed: seq<Job>) returns (u: Store)
    requires changed != [] && Sound(s) && FreshJobs(s, changed) && PublishJobs(s, previous, changed).Ok?
    ensures PublishJob(s, previous, changed[0]) == Ok(u) && Sound(u) && FreshJobs(u, changed[1..]) && u.name == s.name
    ensures u.key == s.key && PublishJobs(u, previous, changed[1..]) == PublishJobs(s, previous, changed)
  {
    u := PublishJob(s, previous, changed[0]).value;
    PublishJobAdvances(s, previous, changed[0], u);
    forall i | 0 <= i < |changed[1..]| ensures FreshJob(u, changed[1..][i]) {
      assert FreshJob(s, changed[i + 1]);
    }
  }

  lemma {:induction false} TouchedRow(s: Store, previous: seq<Job>, changed: seq<Job>, t: Store, j: Job)
    requires Sound(s) && FreshJobs(s, changed) && PublishJobs(s, previous, changed) == Ok(t)
    requires j in changed && Ours(s, j)
    ensures Agrees(t, j) <==> Publishable(s, j)
    decreases |changed|
  {
    var u := PublishStep(s, previous, changed);
    if changed[0] == j {
      PublishedRowAgrees(s, previous, j, u);
      UntouchedRow(u, previous, changed[1..], t, j);
    } else {
      var m :| 0 <= m < |changed| && changed[m] == j;
      assert changed[1..][m - 1] == j;
      PublishTouchesOne(s, previous, changed[0], u, j);
      TouchedRow(u, previous, changed[1..], t, j);
    }
  }

  lemma RowAfterUpdate(e: Store, s: Store, r: Store, changed: seq<Job>, j: Job)
    requires GoodEdit(s, e) && PublishJobs(WithTrust(e), s.jobs, changed) == Ok(r) && j in e.jobs
    requires changed == ChangedJobs(e.jobs, s.jobs)
    ensures Agrees(r, j) <==> if JobChanged(s.jobs, j) then Publishable(e, j) else Agrees(e, j)
  {
    ChangedAreFresh(e, s, changed);
    if JobChanged(s.jobs, j) {
      TouchedRow(WithTrust(e), s.jobs, changed, r, j);
    } else {
      forall m | 0 <= m < |changed| ensures changed[m].id != j.id {
        assert changed[m] in changed;
        SameRowSameId(e.jobs, changed[m], j);
      }
      UntouchedRow(WithTrust(e), s.jobs, changed, r, j);
    }
  }

  lemma SameRowSameId(jobs: seq<Job>, a: Job, b: Job)
    requires UniqueIds(jobs) && a in jobs && b in jobs && a != b
    ensures a.id != b.id
  {
  }

  /** After an update every row agrees with its fact if and only if each row it changed could still
      be published and each row it left alone agreed before. */
  lemma AgreesAfterUpdateIff(e: Store, s: Store, r: Store)
    requires GoodEdit(s, e) && RefreshOwned(e, s) == Ok(r)
    ensures forall j :: j in e.jobs ==>
      (Agrees(r, j) <==> if JobChanged(s.jobs, j) then Publishable(e, j) else Agrees(e, j))
  {
    forall j | j in e.jobs
      ensures Agrees(r, j) <==> if JobChanged(s.jobs, j) then Publishable(e, j) else Agrees(e, j)
    {
      RowAfterUpdate(e, s, r, ChangedJobs(e.jobs, s.jobs), j);
    }
  }

  // ---- Facts that other machines accept

  /** A fact written here passes validation elsewhere exactly when its reason and its outputs are
      within the limits and its role may carry that status. */
  lemma WrittenFactValidIff(s: Store, j: Job, role: Role, digests: (OutputRef, OutputRef))
    requires j.id in s.certs && s.certs[j.id] in s.entries && WriteFact(s, j, role, digests).Ok?
    requires OwnRole(s.name, j) == Some(role)
    requires var key, record := s.certs[j.id], s.entries[s.certs[j.id]].record;
      && record.certificate.invocation == key
      && s.key == (if role.Runner? then key.runnerKey else key.originKey)
      && DigestsFor(s, j, role, FactIn(record, role)) == Ok(digests)
      && (FactIn(record, role).Some? ==> ValidFact(record.certificate, FactIn(record, role).value, role))
    ensures var record := WriteFact(s, j, role, digests).value.entries[s.certs[j.id]].record;
      ValidFact(record.certificate, FactIn(record, role).value, role)
      <==> ValidReason(j.status)
           && (role.Runner? ==>
                 && !j.status.WaitingBody?
                 && (j.id in s.outputPruned || (|j.stdout| <= STREAM_BYTES && |j.stderr| <= STREAM_BYTES)))
  {
  }

  // ---- Admissions that other machines accept

  /** A new job of this machine is certified by it, with both keys as it knows them and the job it retries. */
  lemma NewJobIsCertified(s: Store, previous: seq<Job>, j: Job, t: Store)
    requires Ours(s, j) && j.id !in s.certs && PublishJob(s, previous, j) == Ok(t)
    ensures j.from == s.name && KnownKey(s, j.body).Some? && j.id in t.certs && t.certs[j.id] in t.entries
    ensures var i := t.certs[j.id];
      && i == Invocation(j.id, s.name, s.key, j.body, KnownKey(s, j.body).value, j.argv,
                         if j.id in s.retryLinks then Some(s.retryLinks[j.id]) else None)
      && t.entries[i].record.certificate == Certificate(i, Signed(s.key, Admission(i)))
  {
    var u := PublishStages(s, previous, j, t);
    var c := CertificateFor(s, j).value;
    assert u.certs[j.id] == c.invocation && u.entries[c.invocation].record.certificate == c;
    if t != u {
      PublishWrites(s, previous, j, u, t);
    }
  }

  /** Another machine accepts that admission exactly when it knows both machines under the same keys and the command
      and the ID of the retried job are within the limits. */
  lemma AdmissionValidIff(s: Store, j: Job, c: Certificate, other: Store)
    requires CertificateFor(s, j) == Ok(c) && j.from == s.name
    ensures ValidInvocation(other, c) <==>
      && ValidCommand(j.id, j.argv)
      && (j.id in s.retryLinks ==> ValidIdentifier(s.retryLinks[j.id]) && s.retryLinks[j.id] != j.id)
      && KnownKey(other, s.name) == Some(s.key) && KnownKey(other, j.body) == KnownKey(s, j.body)
  {
  }

  /** Exactly when publishing a row fails: an admission that cannot be signed here, a binding that does not fit, pruned
      output without a fact, or no step left of the revision or of the change counter. */
  lemma PublishFailsIff(s: Store, previous: seq<Job>, j: Job)
    requires Ours(s, j) && SoundCerts(s.entries, s.certs) && s.clock <= MAX_U64
    ensures PublishJob(s, previous, j).Err? <==>
      if j.id !in s.certs then
        || j.from != s.name || FindJob(previous, j.id).Some? || KnownKey(s, j.body).None?
        || s.clock + (if OwnRole(s.name, j).Some? then 2 else 1) > MAX_U64
        || (OwnRole(s.name, j) == Some(Runner) && j.id in s.outputPruned)
      else
        var record := s.entries[s.certs[j.id]].record;
        || !MatchesJob(record.certificate, j)
        || (OwnRole(s.name, j).Some? && CannotSay(s, j, OwnRole(s.name, j).value, record))
  {
    if j.id !in s.certs && Certify(s, previous, j).Ok? {
      var u := Certify(s, previous, j).value;
      var c := CertificateFor(s, j).value;
      assert u.entries[u.certs[j.id]] == Entry(Record(c, None, None), u.clock, None);
    }
  }

  /** There is no fact that says it and none can be written. */
  predicate CannotSay(s: Store, j: Job, role: Role, r: Record) {
    var held := FactIn(r, role);
    if held.None? then (role.Runner? && j.id in s.outputPruned) || s.clock == MAX_U64
    else
      var f := held.value.fact;
      && !IsTerminal(f.status)
      && !(f.status == j.status
           && (if role.Origin? then OutputMatches(Captured([], []), f)
               else j.id in s.outputPruned || OutputMatches(OutputOfJob(j), f)))
      && (f.revision >= MAX_U64 || s.clock == MAX_U64)
  }

  // ---- What the origin says

  /** A job of this machine that it does not run has a delivery state to tell. */
  predicate ToldHere(s: Store, j: Job) {
    && j.from == s.name && !RunHere(s, j)
    && (j.status.Queued? || j.status.WaitingBody? || j.status.WaitingCapacity? || j.status.Failed?)
  }

  /** The origin's fact has the row's status, and no output. */
  predicate OriginTells(s: Store, j: Job) {
    && j.id in s.certs && s.certs[j.id] in s.entries && s.entries[s.certs[j.id]].record.origin.Some?
    && var f := s.entries[s.certs[j.id]].record.origin.value.fact;
       f.status == j.status && f.stdout == f.stderr == OutputRef(0, Sha256([]))
  }

  /** The origin has not failed the job for good, or has said exactly this. */
  predicate OriginOpen(s: Store, j: Job) {
    (j.id in s.certs && s.certs[j.id] in s.entries && s.entries[s.certs[j.id]].record.origin.Some?
     && IsTerminal(s.entries[s.certs[j.id]].record.origin.value.fact.status))
    ==> OriginTells(s, j)
  }

  lemma PublishedOriginTells(s: Store, previous: seq<Job>, j: Job, t: Store)
    requires ToldHere(s, j) && PublishJob(s, previous, j) == Ok(t)
    ensures OriginTells(t, j) <==> OriginOpen(s, j)
  {
    var u := PublishStages(s, previous, j, t);
    if j.id !in s.certs {
      var c := CertifyShape(s, previous, j, u);
    }
    if t == u {
      SilentOrigin(s, previous, j, u);
    } else {
      PublishWrites(s, previous, j, u, t);
      WrittenOriginTells(u, j, DigestsFor(u, j, Origin, FactIn(u.entries[u.certs[j.id]].record, Origin)).value, t);
    }
  }

  lemma WrittenOriginTells(u: Store, j: Job, digests: (OutputRef, OutputRef), t: Store)
    requires j.id in u.certs && u.certs[j.id] in u.entries && WriteFact(u, j, Origin, digests) == Ok(t)
    requires digests == (OutputOf([]), OutputOf([]))
    ensures OriginTells(t, j)
  {
  }

  lemma SilentOrigin(s: Store, previous: seq<Job>, j: Job, u: Store)
    requires ToldHere(s, j) && PublishJob(s, previous, j) == Ok(u) && Certify(s, previous, j) == Ok(u)
    ensures j.id in u.certs && u.certs[j.id] in u.entries && u.entries[u.certs[j.id]].record.origin.Some?
    ensures IsTerminal(u.entries[u.certs[j.id]].record.origin.value.fact.status) || OriginTells(u, j)
  {
  }

  lemma {:induction false} TouchedOrigin(s: Store, previous: seq<Job>, changed: seq<Job>, t: Store, j: Job)
    requires Sound(s) && FreshJobs(s, changed) && PublishJobs(s, previous, changed) == Ok(t)
    requires j in changed && ToldHere(s, j)
    ensures OriginTells(t, j) <==> OriginOpen(s, j)
    decreases |changed|
  {
    var u := PublishStep(s, previous, changed);
    if changed[0] == j {
      PublishedOriginTells(s, previous, j, u);
      UntouchedRow(u, previous, changed[1..], t, j);
    } else {
      var m :| 0 <= m < |changed| && changed[m] == j;
      assert changed[1..][m - 1] == j;
      PublishTouchesOne(s, previous, changed[0], u, j);
      TouchedOrigin(u, previous, changed[1..], t, j);
    }
  }

  lemma OriginAfterUpdate(e: Store, s: Store, r: Store, j: Job)
    requires GoodEdit(s, e) && RefreshOwned(e, s) == Ok(r) && j in e.jobs && ToldHere(e, j)
    ensures OriginTells(r, j) <==> if JobChanged(s.jobs, j) then OriginOpen(e, j) else OriginTells(e, j)
  {
    var changed := ChangedJobs(e.jobs, s.jobs);
    ChangedAreFresh(e, s, changed);
    if JobChanged(s.jobs, j) {
      TouchedOrigin(WithTrust(e), s.jobs, changed, r, j);
    } else {
      forall m | 0 <= m < |changed| ensures changed[m].id != j.id {
        assert changed[m] in changed;
        SameRowSameId(e.jobs, changed[m], j);
      }
      UntouchedRow(WithTrust(e), s.jobs, changed, r, j);
    }
  }

  /** After an update every job that is delivered elsewhere has its delivery state signed if and only if each row the
      update changed was still open and each row it left alone was told before. */
  lemma OriginsToldIff(e: Store, s: Store, r: Store)
    requires GoodEdit(s, e) && RefreshOwned(e, s) == Ok(r)
    ensures forall j :: j in e.jobs && ToldHere(e, j) ==>
      (OriginTells(r, j) <==> if JobChanged(s.jobs, j) then OriginOpen(e, j) else OriginTells(e, j))
  {
    forall j | j in e.jobs && ToldHere(e, j)
      ensures OriginTells(r, j) <==> if JobChanged(s.jobs, j) then OriginOpen(e, j) else OriginTells(e, j)
    {
      OriginAfterUpdate(e, s, r, j);
    }
  }

  // ---- What a machine takes from others

  /** Every fact in an accepted record was signed by the machine it is of, whose key is known here, counts from
      revision 1, is within the limits, and says only what that machine may say. */
  lemma AcceptedMeans(s: Store, p: Published, t: Store, role: Role)
    requires Ingest(s, p) == Ok(t) && FactIn(p.record, role).Some?
    ensures var i, f := p.record.certificate.invocation, FactIn(p.record, role).value;
      && ValidCommand(i.id, i.argv) && (i.retryOf.Some? ==> i.retryOf.value != i.id)
      && KnownKey(s, i.from) == Some(i.originKey) && KnownKey(s, i.body) == Some(i.runnerKey)
      && p.record.certificate.signature == Signed(i.originKey, Admission(i))
      && f.signature == Signed(if role.Runner? then i.runnerKey else i.originKey, Statement(f.fact))
      && f.fact.invocation == i && f.fact.role == role && f.fact.revision >= 1
      && f.fact.stdout.bytes <= STREAM_BYTES && f.fact.stderr.bytes <= STREAM_BYTES
      && (f.fact.status.Denied? || f.fact.status.Failed? || f.fact.status.Uncertain? ==>
            |f.fact.status.reason| <= STATUS_REASON_BYTES)
      && (if role.Runner? then f.fact.status.Running? || IsTerminal(f.fact.status)
          else !f.fact.status.Running? && f.fact.stdout.bytes == f.fact.stderr.bytes == 0
               && (IsTerminal(f.fact.status) ==> f.fact.status.Failed?))
  {
  }
}
