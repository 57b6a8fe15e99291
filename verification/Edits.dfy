/** The updates the program makes (every call of `Store::update`), and what each run of committed
    updates keeps. */
module Edits {
  import opened Types
  import opened History
  import opened Advance
  import opened Encoding
  import opened Storage
  import opened Retention
  import opened Update
  import opened Execution
  import opened Settlement

  datatype Edit =
    | Learn(peer: string, asked: Progress, page: Page)
    | Reply(peer: string, published: Published)
    | Append(id: string, body: string, argv: seq<string>, retryOf: Option<string>)
    | DeliveryFailed(id: string, error: Error)
    | Submit(call: Call, now: Now, permit: bool, requestId: string)
    | Finish(grant: Grant, run: Job, outcome: Outcome)
    | Refuse(id: string, error: Error)
    | Recover
    | Discard(keep: nat)
    | Add(grant: Grant)
    | Remove(target: string)
    | Ask(from: string, tool: string, requestId: string)
    | Settle(requestId: string, decision: Decision)
    | SetPeers(peers: seq<Peer>)

  /** `append_retry`: a job of this machine, queued for this or another machine. */
  function AppendJob(s: Store, id: string, body: string, argv: seq<string>, retryOf: Option<string>): Result<Store> {
    if !ValidCommand(id, argv) then Err(Usage) else
    Ok(s.(jobs := s.jobs + [Job(id, s.name, body, argv, Queued, [], [])],
          retryLinks := if retryOf.Some? then s.retryLinks[id := retryOf.value] else s.retryLinks))
  }

  /** The row `dispatch_one` writes after a failed delivery to another machine. */
  function FailDelivery(s: Store, id: string, e: Error): Store {
    var i := JobIndex(s.jobs, id);
    if i == |s.jobs| || IsTerminal(s.jobs[i].status) then s else
    var j := s.jobs[i];
    var status := if e.Capacity? then (if j.status.Running? then j.status else WaitingCapacity)
                  else if e.Unreachable? then (if j.status.Running? then j.status else WaitingBody)
                  else Failed(ErrorText(e));
    s.(jobs := s.jobs[i := j.(status := status)])
  }

  ghost function Apply(s: Store, edit: Edit): Result<Store> {
    match edit
    case Learn(peer, asked, page) => LearnPage(s, peer, asked, page)
    case Reply(peer, published) => AcceptRunnerReply(s, peer, published)
    case Append(id, body, argv, retryOf) => AppendJob(s, id, body, argv, retryOf)
    case DeliveryFailed(id, e) => Ok(FailDelivery(s, id, e))
    case Submit(call, now, permit, requestId) =>
      if call.argv == [] then Err(Usage) else
      var a :- SubmitEdit(s, call, now, permit, requestId);
      Ok(a.store)
    case Finish(grant, run, outcome) => FinishEdit(s, grant, run, outcome)
    case Refuse(id, e) => RefuseLocal(s, id, e)
    case Recover => Ok(s.(jobs := RecoverRows(s.jobs, s.name)))
    case Discard(keep) => Storage.Prune(s, keep)
    case Add(grant) => Ok(CommitGrant(s, grant))
    case Remove(target) => RemoveGrant(s, target)
    case Ask(from, tool, requestId) => if ValidTool(tool) then Ok(Upsert(s, from, tool, requestId)) else Err(Usage)
    case Settle(requestId, decision) => Decide(s, requestId, decision)
    case SetPeers(peers) => Ok(s.(peers := peers))
  }

  predicate FreshId(s: Store, id: string) {
    FindJob(s.jobs, id).None? && forall k :: k in s.entries ==> k.id != id
  }

  /** What the callers see to: new IDs are fresh, a certified call passed its checks and carries its
      certificate's command, a run was started here, and deliveries and replies are of other machines. */
  predicate Fair(s: Store, edit: Edit) {
    match edit
    case Append(id, _, _, _) => FreshId(s, id)
    case Submit(call, _, _, _) =>
      if call.certificate.Some? then
        var i := call.certificate.value.invocation;
        && i.id == call.id && i.from == call.from && i.argv == call.argv
        && ValidInvocation(s, call.certificate.value) && i.body == s.name
      else FindJob(s.jobs, call.id).None? ==> FreshId(s, call.id)
    case Finish(_, run, _) => run.body == s.name
    case Reply(peer, _) => peer != s.name
    case DeliveryFailed(id, _) => FindJob(s.jobs, id).Some? ==> FindJob(s.jobs, id).value.body != s.name
    case _ => true
  }

  // ---- Rows

  /** The rows that an edit leaves or replaces in place keep their identity; at most one is added. */
  ghost predicate SameRows(s: Store, e: Store) {
    && |e.jobs| == |s.jobs|
    && forall i :: 0 <= i < |s.jobs| ==> e.jobs[i].id == s.jobs[i].id && (Ours(s, s.jobs[i]) ==> Ours(s, e.jobs[i]))
  }

  lemma SameRowsGood(s: Store, e: Store)
    requires GoodStore(s) && SameRows(s, e) && Advances(s, e) && Sound(e) && CertsKept(s, e)
    ensures GoodEdit(s, e)
  {
    forall i, j | 0 <= i < j < |e.jobs| ensures e.jobs[i].id != e.jobs[j].id {
      assert s.jobs[i].id != s.jobs[j].id;
    }
    forall i | 0 <= i < |e.jobs| ensures Ours(e, e.jobs[i]) && FreshJob(e, e.jobs[i]) {
      assert RowCertified(s, s.jobs[i]);
    }
  }

  /** A new row is this machine's, and no stored entry has its ID unless it is bound to it. */
  lemma AddedRowGood(s: Store, e: Store, j: Job)
    requires GoodStore(s) && e.jobs == s.jobs + [j] && Advances(s, e) && Sound(e) && CertsKept(s, e)
    requires FindJob(s.jobs, j.id).None? && Ours(s, j) && FreshJob(e, j)
    ensures GoodEdit(s, e)
  {
    forall i, k | 0 <= i < k < |e.jobs| ensures e.jobs[i].id != e.jobs[k].id {
      if k == |s.jobs| {
        assert JobIndex(s.jobs, j.id) == |s.jobs|;
      }
    }
    forall i | 0 <= i < |e.jobs| ensures Ours(e, e.jobs[i]) && FreshJob(e, e.jobs[i]) {
      if i < |s.jobs| {
        assert RowCertified(s, s.jobs[i]);
      }
    }
  }

  lemma HistoryUntouched(s: Store, e: Store)
    requires GoodStore(s) && SameRows(s, e)
    requires e == s.(jobs := e.jobs, grants := e.grants, requests := e.requests, peers := e.peers)
    ensures GoodEdit(s, e)
  {
    AdvancesReflexive(s);
    SameRowsGood(s, e);
  }

  // ---- Each edit

  lemma {:induction false} LearnAllAdvances(s: Store, entries: seq<Published>, unknown: bool)
    requires Sound(s) && LearnAll(s, entries, unknown).Ok?
    ensures var t := LearnAll(s, entries, unknown).value.0;
      Advances(s, t) && Sound(t) && t == s.(clock := t.clock, entries := t.entries)
    decreases |entries|
  {
    if entries == [] {
      AdvancesReflexive(s);
    } else if AuthorsKnown(s, entries[0].record.certificate) {
      IngestAdvances(s, entries[0]);
      var t := Ingest(s, entries[0]).value;
      LearnAllAdvances(t, entries[1..], unknown);
      AdvancesTransitive(s, t, LearnAll(t, entries[1..], unknown).value.0);
    } else {
      LearnAllAdvances(s, entries[1..], true);
    }
  }

  lemma LearnIsGood(s: Store, peer: string, asked: Progress, page: Page, e: Store)
    requires GoodStore(s) && LearnPage(s, peer, asked, page) == Ok(e)
    ensures GoodEdit(s, e) && e == s.(clock := e.clock, entries := e.entries, progress := e.progress)
  {
    LearnAllAdvances(s, page.entries, !page.reset && asked.unknown);
    SameRowsGood(s, e);
  }

  lemma ReplyIsGood(s: Store, peer: string, p: Published, e: Store)
    requires GoodStore(s) && AcceptRunnerReply(s, peer, p) == Ok(e)
    ensures GoodEdit(s, e)
  {
    ReplyAdvances(s, peer, p);
    ReplyShape(s, peer, p);
    ReplyRows(s, peer, p, e);
    SameRowsGood(s, e);
  }

  lemma IngestFrame(s: Store, p: Published)
    requires Ingest(s, p).Ok?
    ensures Ingest(s, p).value == s.(clock := Ingest(s, p).value.clock, entries := Ingest(s, p).value.entries)
  {
  }

  /** The row a reply writes keeps the identity of the row it replaces. */
  lemma ReplyRow(s: Store, peer: string, p: Published, e: Store)
    requires AcceptRunnerReply(s, peer, p) == Ok(e) && e != s
    requires Ingest(s, p) == Ok(s.(clock := e.clock, entries := e.entries))
    ensures e.certs == s.certs
    ensures var key, i := p.record.certificate.invocation, JobIndex(s.jobs, p.record.certificate.invocation.id);
      e.jobs == s.jobs || (i < |s.jobs| && MatchesJob(p.record.certificate, s.jobs[i])
        && exists j :: j == e.jobs[i] && j.id == key.id && j.from == key.from && j.body == key.body
            && e.jobs == s.jobs[i := j])
  {
  }

  lemma ReplyRows(s: Store, peer: string, p: Published, e: Store)
    requires AcceptRunnerReply(s, peer, p) == Ok(e)
    ensures SameRows(s, e) && e.certs == s.certs
  {
    if e != s {
      ReplyShape(s, peer, p);
      IngestFrame(s, p);
      ReplyRow(s, peer, p, e);
    }
  }

  lemma AppendIsGood(s: Store, id: string, body: string, argv: seq<string>, retryOf: Option<string>, e: Store)
    requires GoodStore(s) && FreshId(s, id) && AppendJob(s, id, body, argv, retryOf) == Ok(e)
    ensures GoodEdit(s, e)
  {
    AdvancesReflexive(s);
    AddedRowGood(s, e, Job(id, s.name, body, argv, Queued, [], []));
  }

  lemma AdmitShape(t: Store, c: Call, now: Now, permit: bool, requestId: string, a: Accepted)
    requires c.argv != [] && Admit(t, c, now, permit, requestId) == Ok(a)
    ensures exists status: Status ::
      && (status.Running? || status.Denied?)
      && a.store.jobs == PutJob(t.jobs, Job(c.id, c.from, t.name, c.argv, status, [], []))
    ensures a.store == t.(jobs := a.store.jobs, grants := a.store.grants, requests := a.store.requests)
  {
    match CheckRun(t, c.from, c.argv, now)
    case Ok(g) => assert a.store.jobs == PutJob(t.jobs, NewRow(t, c, Running));
    case Err(x) => assert a.store.jobs == PutJob(t.jobs, NewRow(t, c, Denied(ErrorText(x))));
  }

  lemma BindFrame(s: Store, c: Certificate, t: Store)
    requires BindAdmission(s, c) == Ok(t)
    ensures t == s.(clock := t.clock, entries := t.entries, certs := t.certs, retryLinks := t.retryLinks)
  {
  }

  /** What an admission does to the history, the rows and the controls. */
  lemma SubmitShape(s: Store, c: Call, now: Now, permit: bool, requestId: string, a: Accepted) returns (t: Store)
    requires c.argv != [] && SubmitEdit(s, c, now, permit, requestId) == Ok(a)
    ensures Bound(s, c) == Ok(t) && Admit(t, c, now, permit, requestId) == Ok(a)
    ensures t == s.(clock := t.clock, entries := t.entries, certs := t.certs, retryLinks := t.retryLinks)
    ensures a.store == t.(jobs := a.store.jobs, grants := a.store.grants, requests := a.store.requests)
    ensures exists status: Status ::
      && (status.Running? || status.Denied?)
      && a.store.jobs == PutJob(s.jobs, Job(c.id, c.from, s.name, c.argv, status, [], []))
  {
    t := Bound(s, c).value;
    if c.certificate.Some? {
      BindFrame(s, c.certificate.value, t);
    }
    AdmitShape(t, c, now, permit, requestId, a);
  }

  lemma BoundAdvances(s: Store, c: Call, t: Store)
    requires GoodStore(s) && Bound(s, c) == Ok(t)
    ensures Advances(s, t) && Sound(t) && CertsKept(s, t)
    ensures c.certificate.Some? ==> c.certificate.value.invocation.id in t.certs
    ensures c.certificate.None? ==> t == s
  {
    if c.certificate.Some? {
      BindAdvances(s, c.certificate.value);
      BindKeepsCerts(s, c.certificate.value, t);
    } else {
      AdvancesReflexive(s);
    }
  }

  lemma BindKeepsCerts(s: Store, c: Certificate, t: Store)
    requires BindAdmission(s, c) == Ok(t)
    ensures CertsKept(s, t)
  {
  }

  lemma SubmitIsGood(s: Store, c: Call, now: Now, permit: bool, requestId: string, a: Accepted)
    requires GoodStore(s) && c.argv != [] && Fair(s, Submit(c, now, permit, requestId))
    requires SubmitEdit(s, c, now, permit, requestId) == Ok(a)
    ensures GoodEdit(s, a.store)
  {
    var t := SubmitShape(s, c, now, permit, requestId, a);
    BoundAdvances(s, c, t);
    var status: Status :| a.store.jobs == PutJob(s.jobs, Job(c.id, c.from, s.name, c.argv, status, [], []));
    PlacedRowGood(s, t, a.store, c, Job(c.id, c.from, s.name, c.argv, status, [], []));
  }

  lemma PlacedRowGood(s: Store, t: Store, e: Store, c: Call, j: Job)
    requires GoodStore(s) && Advances(s, t) && Sound(t) && CertsKept(s, t)
    requires e == t.(jobs := PutJob(s.jobs, j), grants := e.grants, requests := e.requests)
    requires j.id == c.id && j.from == c.from && j.body == s.name
    requires if c.certificate.Some? then c.id in t.certs
             else t == s && (FindJob(s.jobs, c.id).None? ==> FreshId(s, c.id))
    ensures GoodEdit(s, e)
  {
    if JobIndex(s.jobs, c.id) < |s.jobs| {
      SameRowsGood(s, e);
    } else {
      AddedRowGood(s, e, j);
    }
  }

  lemma {:induction false} RecoveredRows(jobs: seq<Job>, name: string, i: nat)
    requires i < |jobs|
    ensures RecoverRows(jobs, name)[i] ==
      if jobs[i].body == name && jobs[i].status.Running? then jobs[i].(status := Uncertain("restarted")) else jobs[i]
  {
    if i > 0 {
      RecoveredRows(jobs[1..], name, i - 1);
    }
  }

  lemma RecoverIsGood(s: Store)
    requires GoodStore(s)
    ensures GoodEdit(s, s.(jobs := RecoverRows(s.jobs, s.name)))
  {
    var e := s.(jobs := RecoverRows(s.jobs, s.name));
    forall i | 0 <= i < |s.jobs| ensures e.jobs[i].id == s.jobs[i].id && (Ours(s, s.jobs[i]) ==> Ours(s, e.jobs[i])) {
      RecoveredRows(s.jobs, s.name, i);
    }
    HistoryUntouched(s, e);
  }

  lemma DiscardIsGood(s: Store, keep: nat, e: Store)
    requires GoodStore(s) && Storage.Prune(s, keep) == Ok(e)
    ensures GoodEdit(s, e)
  {
    PruningAdvances(s, OldestBut(s, keep));
    PruneDropsOutput(s, keep, e);
    DroppedIsGood(s, e);
  }

  lemma DroppedIsGood(s: Store, e: Store)
    requires GoodStore(s) && Advances(s, e) && Sound(e) && OnlyOutputDropped(s, e)
    ensures GoodEdit(s, e)
  {
    forall i | 0 <= i < |s.jobs| ensures e.jobs[i].id == s.jobs[i].id && (Ours(s, s.jobs[i]) ==> Ours(s, e.jobs[i])) {
      assert RowKept(s.jobs[i], e.jobs[i]);
    }
    SameRowsGood(s, e);
  }

  lemma PruningAdvances(s: Store, keys: seq<Invocation>)
    requires Sound(s) && (forall k :: k in keys ==> k in s.entries) && RemoveAll(s, keys).Ok?
    ensures Advances(s, RemoveAll(s, keys).value) && Sound(RemoveAll(s, keys).value)
  {
    PruningNeverRaisesCharge(Widths(_ => 0, _ => 0, _ => 0, _ => 0), s, keys);
  }

  /** At most the row of one ID is rewritten, in place. */
  predicate OneRow(s: Store, e: Store, i: nat) {
    && e == s.(jobs := e.jobs, grants := e.grants)
    && (e.jobs == s.jobs || (i < |s.jobs| == |e.jobs| && e.jobs == s.jobs[i := e.jobs[i]]))
    && (i < |s.jobs| == |e.jobs| ==>
          e.jobs[i].id == s.jobs[i].id && (Ours(s, s.jobs[i]) ==> Ours(s, e.jobs[i])))
  }

  lemma OneRowGood(s: Store, e: Store, i: nat)
    requires GoodStore(s) && OneRow(s, e, i)
    ensures GoodEdit(s, e)
  {
    HistoryUntouched(s, e);
  }

  lemma FinishRow(s: Store, g: Grant, run: Job, o: Outcome, e: Store)
    requires run.body == s.name && FinishEdit(s, g, run, o) == Ok(e)
    ensures OneRow(s, e, JobIndex(s.jobs, run.id))
  {
  }

  lemma RefuseRow(s: Store, id: string, x: Error, e: Store)
    requires RefuseLocal(s, id, x) == Ok(e)
    ensures OneRow(s, e, JobIndex(s.jobs, id))
  {
  }

  lemma DeliveryRow(s: Store, id: string, x: Error)
    ensures OneRow(s, FailDelivery(s, id, x), JobIndex(s.jobs, id))
  {
  }

  /** All but learning, replies, admissions and discards leave the history, the clock and the progress. */
  lemma OtherFrame(s: Store, edit: Edit, e: Store)
    requires !edit.Learn? && !edit.Reply? && !edit.Submit? && !edit.Discard? && Apply(s, edit) == Ok(e)
    ensures e == s.(jobs := e.jobs, grants := e.grants, requests := e.requests, peers := e.peers,
                          retryLinks := e.retryLinks)
  {
    match edit
    case Append(_, _, _, _) =>
    case DeliveryFailed(_, _) =>
    case Finish(_, _, _) =>
    case Refuse(_, _) =>
    case Recover =>
    case _ => ControlShape(s, edit, e);
  }

  lemma RowEditIsGood(s: Store, edit: Edit, e: Store)
    requires edit.DeliveryFailed? || edit.Finish? || edit.Refuse?
    requires GoodStore(s) && Fair(s, edit) && Apply(s, edit) == Ok(e)
    ensures GoodEdit(s, e)
  {
    match edit
    case Finish(g, run, o) => FinishRow(s, g, run, o, e); OneRowGood(s, e, JobIndex(s.jobs, run.id));
    case Refuse(id, x) => RefuseRow(s, id, x, e); OneRowGood(s, e, JobIndex(s.jobs, id));
    case DeliveryFailed(id, x) => DeliveryRow(s, id, x); OneRowGood(s, e, JobIndex(s.jobs, id));
  }

  predicate IsControl(edit: Edit) {
    edit.Add? || edit.Remove? || edit.Ask? || edit.Settle? || edit.SetPeers?
  }

  lemma ControlShape(s: Store, edit: Edit, e: Store)
    requires IsControl(edit) && Apply(s, edit) == Ok(e)
    ensures e == s.(grants := e.grants, requests := e.requests, peers := e.peers)
  {
  }

  /** Every update the program makes keeps what `Commit` needs of its edits. */
  lemma EveryEditIsGood(s: Store, edit: Edit, e: Store)
    requires GoodStore(s) && Fair(s, edit) && Apply(s, edit) == Ok(e)
    ensures GoodEdit(s, e)
  {
    match edit
    case Learn(peer, asked, page) => LearnIsGood(s, peer, asked, page, e);
    case Reply(peer, published) => ReplyIsGood(s, peer, published, e);
    case Append(id, body, argv, retryOf) => AppendIsGood(s, id, body, argv, retryOf, e);
    case Submit(c, now, permit, id) => SubmitIsGood(s, c, now, permit, id, SubmitEdit(s, c, now, permit, id).value);
    case Recover => RecoverIsGood(s);
    case Discard(keep) => DiscardIsGood(s, keep, e);
    case _ =>
      if IsControl(edit) {
        ControlShape(s, edit, e);
        HistoryUntouched(s, e);
      } else {
        RowEditIsGood(s, edit, e);
      }
  }

  // ---- Every run of updates

  ghost predicate Committed(w: Widths, s: Store, edit: Edit, t: Store) {
    Fair(s, edit) && Apply(s, edit).Ok? && Commit(w, Apply(s, edit).value, s) == Ok(t)
  }

  /** What a completion does in memory when it cannot be saved, for a run that captured nothing yet. */
  ghost predicate Marked(s: Store, i: nat, reason: string, t: Store) {
    && i < |s.jobs| && s.jobs[i].status.Running? && JobBytes(s.jobs[i]) == 0
    && t == s.(jobs := s.jobs[i := s.jobs[i].(status := Uncertain(reason))])
  }

  ghost predicate Step(w: Widths, s: Store, t: Store) {
    || (exists edit :: Committed(w, s, edit, t))
    || (exists i, reason :: Marked(s, i, reason, t))
  }

  ghost predicate Lifetime(w: Widths, states: seq<Store>) {
    states != [] && GoodStore(states[0]) && forall i :: 0 < i < |states| ==> Step(w, states[i - 1], states[i])
  }

  lemma MarkKeeps(s: Store, i: nat, reason: string, t: Store)
    requires GoodStore(s) && Marked(s, i, reason, t)
    ensures GoodStore(t) && Advances(s, t)
  {
    AdvancesReflexive(s);
    forall m | 0 <= m < |t.jobs| ensures RowCertified(t, t.jobs[m]) && RowClean(t, t.jobs[m]) {
      assert RowCertified(s, s.jobs[m]) && RowClean(s, s.jobs[m]);
    }
    Sums.SumSeqUpdate(s.jobs, (j: Job) => JobBytes(j), i, t.jobs[i]);
  }

  lemma StepKeeps(w: Widths, s: Store, t: Store)
    requires GoodStore(s) && Step(w, s, t)
    ensures GoodStore(t) && Advances(s, t)
  {
    if edit :| Committed(w, s, edit, t) {
      EveryEditIsGood(s, edit, Apply(s, edit).value);
      CommitKeeps(w, Apply(s, edit).value, s, t);
    } else {
      var i, reason :| Marked(s, i, reason, t);
      MarkKeeps(s, i, reason, t);
    }
  }

  lemma {:induction false} LifetimeKeeps(w: Widths, states: seq<Store>, i: nat, j: nat)
    requires Lifetime(w, states) && i <= j < |states|
    ensures GoodStore(states[i]) && GoodStore(states[j]) && Advances(states[i], states[j])
    decreases j
  {
    if j == 0 {
      AdvancesReflexive(states[0]);
    } else if i == j {
      LifetimeKeeps(w, states, i - 1, j - 1);
      StepKeeps(w, states[j - 1], states[j]);
      AdvancesReflexive(states[i]);
    } else {
      LifetimeKeeps(w, states, i, j - 1);
      StepKeeps(w, states[j - 1], states[j]);
      AdvancesTransitive(states[i], states[j - 1], states[j]);
    }
  }

  /** Once an invocation is pruned no later update, reply or sync gives it bytes again, and every
      replica that is kept shows the bytes its author signed. */
  lemma TombstonesArePermanent(w: Widths, states: seq<Store>, i: nat, j: nat)
    requires Lifetime(w, states) && i <= j < |states|
    ensures forall k :: k in states[i].historyPruned ==>
      && k in states[j].historyPruned
      && (k in states[j].entries ==> states[j].entries[k].output.None?)
      && (forall m :: 0 <= m < |states[j].jobs| && IsTerminal(states[j].jobs[m].status)
                      && BoundTo(states[j], states[j].jobs[m], k)
            ==> states[j].jobs[m].stdout == states[j].jobs[m].stderr == [])
    ensures forall k :: k in states[j].entries && states[j].entries[k].output.Some? ==>
      && states[j].entries[k].record.Selected().Some?
      && OutputMatches(states[j].entries[k].output.value, states[j].entries[k].record.Selected().value.fact)
  {
    LifetimeKeeps(w, states, i, j);
    var t := states[j];
    forall k, m | k in t.historyPruned && 0 <= m < |t.jobs| && IsTerminal(t.jobs[m].status) && BoundTo(t, t.jobs[m], k)
      ensures t.jobs[m].stdout == t.jobs[m].stderr == []
    {
      assert RowClean(t, t.jobs[m]);
    }
    assert forall k :: k in t.entries ==> Genuine(t.entries[k]);
  }

  // ---- Learned history is inert

  /** Publishing after an edit that changed no row writes nothing. */
  lemma NothingToPublish(s: Store, e: Store)
    requires UniqueIds(s.jobs) && e.jobs == s.jobs && e.peers == s.peers && e.trust == s.trust == TrustOf(s.peers)
    ensures RefreshOwned(e, s) == Ok(e)
  {
    forall i | 0 <= i < |s.jobs| ensures FindJob(s.jobs, s.jobs[i].id) == Some(s.jobs[i]) {
      IndexOfRow(s.jobs, i);
    }
    NoneChanged(s.jobs, s.jobs);
  }

  /** A committed page of learned history adds no job, changes no status, binds no certificate and
      touches no grant, request, peer or retry link: rows only ever lose saved bytes. */
  lemma LearnedHistoryIsInert(w: Widths, s: Store, peer: string, asked: Progress, page: Page, t: Store)
    requires GoodStore(s) && Committed(w, s, Learn(peer, asked, page), t)
    ensures t.certs == s.certs && t.retryLinks == s.retryLinks && SameControl(s, t)
  {
    var e := LearnPage(s, peer, asked, page).value;
    LearnIsGood(s, peer, asked, page, e);
    NothingToPublish(s, e);
    CommitKeeps(w, e, s, t);
    var r, n := CommitStages(w, e, s, t);
    NormalizeTrims(r);
    PublishKeeps(e, s, r);
    NormalizeKeeps(r, n);
    EvictKeeps(w, n, t);
  }
}
