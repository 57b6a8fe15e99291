/** What a call is answered, and what is left of a job that did not run (src/exec.rs `submit_inner`, src/job.rs). */
module Answers {
  import opened Types
  import opened History
  import opened Advance
  import opened Encoding
  import opened Update
  import opened Execution
  import opened Edits
  import opened Publication
  import A = Admission
  import Outputs
  import Retention
  import Settlement
  import Storage

  // ---- Before the update

  /** The command is within the limits and, if it is certified, the certificate is valid and for this machine. */
  predicate InOrder(s: Store, c: Call) {
    && ValidCommand(c.id, c.argv)
    && (c.certificate.Some? ==> ValidInvocation(s, c.certificate.value)
                                && c.certificate.value.invocation.body == s.name)
  }

  /** The row is of this very call: the same caller and command, admitted under the same certificate. */
  predicate RowOf(s: Store, c: Call, j: Job) {
    && j in s.jobs && j.id == c.id && j.from == c.from && j.body == s.name && j.argv == c.argv
    && (c.certificate.Some? ==> c.id in s.certs && s.certs[c.id] == c.certificate.value.invocation)
  }

  /** The row is still waiting for this machine to start its own job. */
  predicate Waiting(s: Store, j: Job) {
    j.from == s.name && (j.status == Queued || j.status == WaitingCapacity)
  }

  /** A call goes on to be admitted exactly when its ID is new or waits here, and is answered from its row exactly
      when it was admitted before; everything else is refused. */
  lemma GateIff(s: Store, c: Call)
    requires UniqueIds(s.jobs)
    ensures Gate(s, c) == Ok(None) <==>
      InOrder(s, c) && forall j :: j in s.jobs && j.id == c.id ==> RowOf(s, c, j) && Waiting(s, j)
    ensures forall j :: Gate(s, c) == Ok(Some(j)) <==> InOrder(s, c) && RowOf(s, c, j) && !Waiting(s, j)
  {
    var i := JobIndex(s.jobs, c.id);
    forall j | j in s.jobs && j.id == c.id ensures i < |s.jobs| && s.jobs[i] == j {
      var m :| 0 <= m < |s.jobs| && s.jobs[m] == j;
      assert m == i;
    }
    assert i < |s.jobs| ==> s.jobs[i] in s.jobs;
  }

  // ---- The admission

  /** Approving a request could let the caller run the tool: no grant, or one that is free and does not reach the
      caller or the moment. */
  predicate OwnerCouldAllow(s: Store, from: string, tool: string, now: Now) {
    forall g :: g in s.grants && g.tool == tool ==>
      && g.reservation.None?
      && (|| (g.allowFrom.Some? && from !in g.allowFrom.value)
          || (g.until.Some? && g.until.value < now.seconds)
          || (g.window.Some? && now.slot !in g.window.value))
  }

  /** What was asked for and is not pending yet becomes one more request. */
  predicate AsksOnce(s: Store, t: Store, from: string, tool: string, requestId: string) {
    if exists r :: r in s.requests && r.from == from && r.tool == tool then t.requests == s.requests
    else t.requests == s.requests + [Request(requestId, from, tool)]
  }

  lemma {:induction false} LastIsPending(requests: seq<Request>, from: string, tool: string)
    ensures LastRequest(requests, from, tool).Some? <==> exists r :: r in requests && r.from == from && r.tool == tool
  {
    if requests != [] {
      var n := |requests| - 1;
      LastIsPending(requests[..n], from, tool);
      assert requests == requests[..n] + [requests[n]];
    }
  }

  lemma DenialAsksIff(s: Store, from: string, argv: seq<string>, now: Now)
    requires argv != [] && OneGrantPerTool(s.grants) && CheckRun(s, from, argv, now).Err?
    ensures AsksOwner(CheckRun(s, from, argv, now).error) <==> OwnerCouldAllow(s, from, argv[0], now)
  {
    var i := GrantIndex(s.grants, argv[0]);
    forall g | g in s.grants && g.tool == argv[0] ensures i < |s.grants| && s.grants[i] == g {
      var k :| 0 <= k < |s.grants| && s.grants[k] == g;
      assert k == i;
    }
    assert i < |s.grants| ==> s.grants[i] in s.grants && s.grants[i].tool == argv[0];
  }

  /** A covered call runs if a place for its process is free and is turned down without a trace if none is; any other
      call is denied, and the owner asked exactly when approving could help. */
  lemma AdmissionIff(s: Store, c: Call, now: Now, permit: bool, requestId: string)
    requires c.argv != [] && OneGrantPerTool(s.grants)
    ensures var covered := exists g :: g in s.grants && Covers(g, c.from, c.argv, now);
      var r := SubmitEdit(s, c, now, permit, requestId);
      && (r.Ok? <==> Bound(s, c).Ok? && (covered ==> permit))
      && (Bound(s, c).Ok? && covered && !permit ==> r == Err(Capacity))
      && (r.Ok? ==> (r.value.run.Some? <==> covered))
      && (r.Ok? && covered ==>
            && r.value.run.value in s.grants && Covers(r.value.run.value, c.from, c.argv, now)
            && r.value.store.requests == s.requests
            && FindJob(r.value.store.jobs, c.id) == Some(Job(c.id, c.from, s.name, c.argv, Running, [], [])))
      && (r.Ok? && !covered ==>
            && FindJob(r.value.store.jobs, c.id).Some?
            && var row := FindJob(r.value.store.jobs, c.id).value;
               row.status.Denied? && row == Job(c.id, c.from, s.name, c.argv, row.status, [], []))
      && (r.Ok? && !covered ==>
            if OwnerCouldAllow(s, c.from, c.argv[0], now) then AsksOnce(s, r.value.store, c.from, c.argv[0], requestId)
            else r.value.store.requests == s.requests)
  {
    CheckedIffCovered(s, c.from, c.argv, now);
    if Bound(s, c).Ok? {
      var t := Bound(s, c).value;
      BoundFrame(s, c, t);
      assert CheckRun(t, c.from, c.argv, now) == CheckRun(s, c.from, c.argv, now);
      AdmittedRow(t, c, now, permit, requestId);
      LastIsPending(s.requests, c.from, c.argv[0]);
      if CheckRun(s, c.from, c.argv, now).Err? {
        DenialAsksIff(s, c.from, c.argv, now);
      }
    }
  }

  lemma BoundFrame(s: Store, c: Call, t: Store)
    requires Bound(s, c) == Ok(t)
    ensures t == s.(clock := t.clock, entries := t.entries, certs := t.certs, retryLinks := t.retryLinks)
  {
  }

  lemma AdmittedRow(t: Store, c: Call, now: Now, permit: bool, requestId: string)
    requires c.argv != []
    ensures var r := Admit(t, c, now, permit, requestId);
      r.Ok? ==>
        && FindJob(r.value.store.jobs, c.id).Some?
        && var row := FindJob(r.value.store.jobs, c.id).value;
           && row == Job(c.id, c.from, t.name, c.argv, row.status, [], [])
           && (if r.value.run.Some? then row.status.Running? else row.status.Denied?)
  {
    var r := Admit(t, c, now, permit, requestId);
    if r.Ok? {
      match CheckRun(t, c.from, c.argv, now)
      case Ok(g) => A.PutIndex(t.jobs, NewRow(t, c, Running));
      case Err(e) =>
        var u := if AsksOwner(e) then Upsert(t, c.from, c.argv[0], requestId) else t;
        A.PutIndex(u.jobs, NewRow(u, c, Denied(ErrorText(e))));
    }
  }

  // ---- The same call again

  lemma BoundHas(s: Store, c: Call, t: Store)
    requires Bound(s, c) == Ok(t) && (c.certificate.Some? ==> c.certificate.value.invocation.id == c.id)
    ensures c.certificate.Some? ==> c.id in t.certs && t.certs[c.id] == c.certificate.value.invocation
  {
  }

  lemma AdmitFrame(t: Store, c: Call, now: Now, permit: bool, requestId: string, x: Accepted)
    requires c.argv != [] && Admit(t, c, now, permit, requestId) == Ok(x)
    ensures x.store == t.(grants := x.store.grants, jobs := x.store.jobs, requests := x.store.requests)
  {
  }

  lemma BoundIsRemembered(s: Store, c: Call, now: Now, permit: bool, requestId: string, x: Accepted)
    requires c.argv != [] && SubmitEdit(s, c, now, permit, requestId) == Ok(x)
    requires c.certificate.Some? ==> c.certificate.value.invocation.id == c.id
    ensures c.certificate.Some? ==> c.id in x.store.certs && x.store.certs[c.id] == c.certificate.value.invocation
    ensures x.store.name == s.name && x.store.key == s.key && x.store.peers == s.peers
  {
    var t := Bound(s, c).value;
    BoundFrame(s, c, t);
    BoundHas(s, c, t);
    AdmitFrame(t, c, now, permit, requestId, x);
  }

  lemma SameBookValid(s: Store, t: Store, c: Certificate)
    requires t.name == s.name && t.key == s.key && t.peers == s.peers
    ensures ValidInvocation(t, c) <==> ValidInvocation(s, c)
  {
  }

  lemma AdmissionSaved(w: Widths, s: Store, c: Call, now: Now, permit: bool, requestId: string, x: Accepted, t: Store)
    requires c.argv != [] && SubmitEdit(s, c, now, permit, requestId) == Ok(x) && Commit(w, x.store, s) == Ok(t)
    ensures FindJob(t.jobs, c.id).Some?
    ensures var row := FindJob(t.jobs, c.id).value;
      && row == Job(c.id, c.from, s.name, c.argv, row.status, [], [])
      && (if x.run.Some? then row.status.Running? else row.status.Denied?)
  {
    A.CommitControl(w, x.store, s, t);
    AdmittedRow(Bound(s, c).value, c, now, permit, requestId);
    BoundFrame(s, c, Bound(s, c).value);
    SavedRow(x.store, t, c.id);
  }

  lemma AnsweredFrom(t: Store, c: Call, row: Job)
    requires UniqueIds(t.jobs) && InOrder(t, c) && FindJob(t.jobs, c.id) == Some(row)
    requires row == Job(c.id, c.from, t.name, c.argv, row.status, [], []) && (row.status.Running? || row.status.Denied?)
    requires c.certificate.Some? ==> c.id in t.certs && t.certs[c.id] == c.certificate.value.invocation
    ensures Gate(t, c) == Ok(Some(row))
  {
    assert t.jobs[JobIndex(t.jobs, c.id)] in t.jobs;
    GateIff(t, c);
    assert RowOf(t, c, row) && !Waiting(t, row);
  }

  /** Once a call has been admitted or denied and that is saved, the same call delivered again is answered from its
      row: it starts nothing and changes nothing. */
  lemma RedeliveryIsAnswered(w: Widths, s: Store, c: Call, now: Now, permit: bool, requestId: string, x: Accepted,
                             t: Store)
    requires GoodStore(s) && Gate(s, c) == Ok(None) && c.argv != [] && Fair(s, Edit.Submit(c, now, permit, requestId))
    requires SubmitEdit(s, c, now, permit, requestId) == Ok(x) && Commit(w, x.store, s) == Ok(t)
    ensures Gate(t, c).Ok? && Gate(t, c).value.Some?
    ensures var row := Gate(t, c).value.value;
      && row == Job(c.id, c.from, s.name, c.argv, row.status, [], [])
      && (if x.run.Some? then row.status.Running? else row.status.Denied?)
  {
    AdmissionSaved(w, s, c, now, permit, requestId, x, t);
    KnownAgain(w, s, c, now, permit, requestId, x, t);
    AnsweredFrom(t, c, FindJob(t.jobs, c.id).value);
  }

  lemma KnownAgain(w: Widths, s: Store, c: Call, now: Now, permit: bool, requestId: string, x: Accepted, t: Store)
    requires GoodStore(s) && InOrder(s, c) && c.argv != [] && Fair(s, Edit.Submit(c, now, permit, requestId))
    requires Gate(s, c) == Ok(None)
    requires SubmitEdit(s, c, now, permit, requestId) == Ok(x) && Commit(w, x.store, s) == Ok(t)
    ensures InOrder(t, c) && UniqueIds(t.jobs) && t.name == s.name
    ensures c.certificate.Some? ==> c.id in t.certs && t.certs[c.id] == c.certificate.value.invocation
  {
    BoundIsRemembered(s, c, now, permit, requestId, x);
    SubmitIsGood(s, c, now, permit, requestId, x);
    Outputs.CommitKeepsBinding(w, x.store, s, t);
    A.CommitControl(w, x.store, s, t);
    if c.certificate.Some? {
      SameBookValid(s, t, c.certificate.value);
    }
  }

  lemma SavedRow(e: Store, t: Store, id: string)
    requires SameControl(e, t) && FindJob(e.jobs, id).Some? && JobBytesEmpty(FindJob(e.jobs, id).value)
    ensures FindJob(t.jobs, id) == FindJob(e.jobs, id)
  {
    forall m | 0 <= m < |e.jobs| ensures t.jobs[m].id == e.jobs[m].id {
      assert RowTrimmed(e.jobs[m], t.jobs[m]);
    }
    Storage.SameIds(e.jobs, t.jobs, id);
    var i := JobIndex(e.jobs, id);
    assert RowTrimmed(e.jobs[i], t.jobs[i]);
  }

  predicate JobBytesEmpty(j: Job) {
    j.stdout == [] && j.stderr == []
  }

  // ---- Jobs that could not run

  /** A queued job of this machine that was refused waits for a place if that was all it lacked, and has failed
      otherwise; a row that is not in the queue any more is left alone. */
  lemma RefusalTells(s: Store, id: string, e: Error, t: Store)
    requires RefuseLocal(s, id, e) == Ok(t)
    ensures var i := JobIndex(s.jobs, id);
      && i < |s.jobs| == |t.jobs| && t == s.(jobs := t.jobs)
      && (forall k :: 0 <= k < |s.jobs| && k != i ==> t.jobs[k] == s.jobs[k])
      && t.jobs[i] == s.jobs[i].(status := t.jobs[i].status)
      && (s.jobs[i].status !in {Queued, WaitingCapacity} ==> t.jobs[i].status == s.jobs[i].status)
      && (s.jobs[i].status in {Queued, WaitingCapacity} ==>
            if e == Capacity then t.jobs[i].status == WaitingCapacity else t.jobs[i].status.Failed?)
  {
  }

  /** A delivery that failed is tried again exactly when the other machine could not be reached or was full; a job
      that was seen running there stays so. */
  lemma DeliveryTells(s: Store, id: string, e: Error)
    ensures var t, i := FailDelivery(s, id, e), JobIndex(s.jobs, id);
      && t == s.(jobs := t.jobs) && |t.jobs| == |s.jobs|
      && (forall k :: 0 <= k < |s.jobs| && k != i ==> t.jobs[k] == s.jobs[k])
      && (i < |s.jobs| ==>
            && t.jobs[i] == s.jobs[i].(status := t.jobs[i].status)
            && (IsTerminal(s.jobs[i].status) ==> t.jobs[i] == s.jobs[i])
            && (!IsTerminal(s.jobs[i].status) ==>
                  && (IsTerminal(t.jobs[i].status) <==> e !in {Capacity, Unreachable})
                  && (IsTerminal(t.jobs[i].status) ==> t.jobs[i].status.Failed?)
                  && (e in {Capacity, Unreachable} ==>
                        if s.jobs[i].status == Running then t.jobs[i].status == Running
                        else t.jobs[i].status == if e == Capacity then WaitingCapacity else WaitingBody)))
  {
  }

  // ---- A job that was queued here

  lemma OnlyAppended(s: Store, e: Store, j: Job)
    requires e.jobs == s.jobs + [j] && FindJob(s.jobs, j.id).None? && UniqueIds(s.jobs)
    ensures ChangedJobs(e.jobs, s.jobs) == [j]
  {
    forall m | 0 <= m < |e.jobs| && m != |s.jobs| ensures FindJob(s.jobs, e.jobs[m].id) == Some(e.jobs[m]) {
      Retention.IndexOfRow(s.jobs, m);
    }
    Settlement.OneChanged(e.jobs, s.jobs, |s.jobs|);
  }

  lemma AppendPublishes(s: Store, id: string, body: string, argv: seq<string>, retryOf: Option<string>, e: Store,
                        r: Store)
    requires GoodStore(s) && FreshId(s, id) && AppendJob(s, id, body, argv, retryOf) == Ok(e)
    requires RefreshOwned(e, s) == Ok(r)
    ensures var j := Job(id, s.name, body, argv, Queued, [], []);
      PublishJob(e, s.jobs, j) == Ok(r) && j.id !in e.certs && Ours(e, j) && ToldHere(e, j)
  {
    var j := Job(id, s.name, body, argv, Queued, [], []);
    OnlyAppended(s, e, j);
    Settlement.RefreshOfOne(e, s, j);
    assert id !in s.certs;
  }

  /** A job that is queued here is saved with a signed admission that names what it retries and the two machines under
      their keys, and with a signed fact that it is queued. */
  lemma QueuedIsTold(w: Widths, s: Store, id: string, body: string, argv: seq<string>, retryOf: Option<string>,
                     e: Store, t: Store)
    requires GoodStore(s) && FreshId(s, id) && id !in s.retryLinks
    requires AppendJob(s, id, body, argv, retryOf) == Ok(e) && Commit(w, e, s) == Ok(t)
    ensures ValidCommand(id, argv) && KnownKey(s, body).Some? && id in t.certs && t.certs[id] in t.entries
    ensures var i, r := t.certs[id], t.entries[t.certs[id]].record;
      && i == Invocation(id, s.name, s.key, body, KnownKey(s, body).value, argv, retryOf)
      && r.certificate == Certificate(i, Signed(s.key, Admission(i)))
      && r.origin.Some? && r.origin.value.fact.status == Queued
  {
    var j := Job(id, s.name, body, argv, Queued, [], []);
    var r, n := CommitStages(w, e, s, t);
    AppendPublishes(s, id, body, argv, retryOf, e, r);
    NewJobIsCertified(e, s.jobs, j, r);
    PublishedOriginTells(e, s.jobs, j, r);
    AppendIsGood(s, id, body, argv, retryOf, e);
    PublishKeeps(e, s, r);
    Settlement.RecordsSaved(w, r, n, t);
    SavedBinding(w, r, n, t);
  }

  lemma SavedBinding(w: Widths, r: Store, n: Store, t: Store)
    requires Sound(r) && UniqueIds(r.jobs) && Certified(r) && r.trust == TrustOf(r.peers)
    requires n == NormalizeOutput(r) && Storage.Evict(n) == Ok(t)
    ensures t.certs == r.certs
  {
    NormalizeKeeps(r, n);
    EvictKeeps(w, n, t);
  }

  // ---- Binding an admission

  /** An admission is bound exactly when its ID is bound to it already, or to nothing and no row has it. It is then
      remembered with the job it retries. */
  lemma BindIff(s: Store, c: Certificate)
    ensures var r, key := BindAdmission(s, c), c.invocation;
      && (r.Ok? <==>
            && (if key.id in s.certs then s.certs[key.id] == key else forall j :: j in s.jobs ==> j.id != key.id)
            && (key in s.entries || s.clock < MAX_U64))
      && (r.Ok? ==>
            var t := r.value;
            && t == s.(clock := t.clock, entries := t.entries, certs := s.certs[key.id := key],
                       retryLinks := t.retryLinks)
            && (if key in s.entries then t.entries == s.entries && t.clock == s.clock
                else && t.clock == s.clock + 1
                     && t.entries == s.entries[key := Entry(Record(c, None, None), t.clock, None)])
            && (if key.retryOf.None? then t.retryLinks == s.retryLinks
                else t.retryLinks == s.retryLinks[key.id := key.retryOf.value]))
  {
    var i := JobIndex(s.jobs, c.invocation.id);
    if j :| j in s.jobs && j.id == c.invocation.id {
      var m :| 0 <= m < |s.jobs| && s.jobs[m] == j;
      assert i <= m;
    }
    assert i < |s.jobs| ==> s.jobs[i] in s.jobs;
  }
}
