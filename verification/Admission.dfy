/** Admission, execution and recovery over whole runs (src/exec.rs, src/store.rs): a job ID starts at
    most one process, and a once-grant is never used by two runs. */
module Admission {
  import opened Types
  import opened History
  import opened Advance
  import opened Encoding
  import opened Storage
  import opened Retention
  import opened Update
  import opened Execution
  import opened Edits
  import opened Saves
  import Names

  // ---- What a commit keeps of rows and grants, whatever the edit

  lemma PublishJobFrame(s: Store, previous: seq<Job>, j: Job, t: Store)
    requires PublishJob(s, previous, j) == Ok(t)
    ensures t == s.(clock := t.clock, entries := t.entries, certs := t.certs)
  {
  }

  lemma {:induction false} PublishJobsFrame(s: Store, previous: seq<Job>, changed: seq<Job>, t: Store)
    requires PublishJobs(s, previous, changed) == Ok(t)
    ensures t == s.(clock := t.clock, entries := t.entries, certs := t.certs)
    decreases |changed|
  {
    if changed != [] {
      var u := PublishJob(s, previous, changed[0]).value;
      PublishJobFrame(s, previous, changed[0], u);
      PublishJobsFrame(u, previous, changed[1..], t);
    }
  }

  lemma EvictFrame(s: Store, t: Store)
    requires Evict(s) == Ok(t)
    ensures OnlyOutputDropped(s, t)
  {
    var keys := Candidates(s);
    var n := EvictionIsMinimal(s, keys);
    assert forall k :: k in keys[..n] ==> k in keys;
    PruningKeepsRows(s, keys[..n]);
  }

  /** A committed update saves the grants and requests of its edit, and its rows but for dropped bytes. */
  lemma CommitControl(w: Widths, e: Store, s: Store, t: Store)
    requires Commit(w, e, s) == Ok(t)
    ensures SameControl(e, t)
  {
    var r, n := CommitStages(w, e, s, t);
    PublishJobsFrame(WithTrust(e), s.jobs, ChangedJobs(e.jobs, s.jobs), r);
    NormalizeTrims(r);
    EvictFrame(n, t);
    StagesControl(e, r, n, t);
  }

  // ---- Rows

  predicate Queueable(s: Status) {
    s.Queued? || s.WaitingCapacity?
  }

  /** The ID has a row of this machine that no dispatcher or redelivery will start again. */
  predicate HasRun(x: Store, id: string) {
    var i := JobIndex(x.jobs, id);
    i < |x.jobs| && x.jobs[i].body == x.name && !Queueable(x.jobs[i].status)
  }

  ghost predicate RowsStay(s: Store, t: Store) {
    t.name == s.name && forall id :: HasRun(s, id) ==> HasRun(t, id)
  }

  /** Rows stay in place; those run here do not go back to the queue. */
  ghost predicate InPlace(s: Store, t: Store) {
    && t.name == s.name && |s.jobs| <= |t.jobs|
    && forall i :: 0 <= i < |s.jobs| ==>
         && t.jobs[i].id == s.jobs[i].id
         && (s.jobs[i].body == s.name && !Queueable(s.jobs[i].status) ==>
               t.jobs[i].body == s.name && !Queueable(t.jobs[i].status))
  }

  lemma {:induction false} IndexStays(jobs: seq<Job>, jobs': seq<Job>, id: string)
    requires |jobs| <= |jobs'| && forall i :: 0 <= i < |jobs| ==> jobs'[i].id == jobs[i].id
    requires JobIndex(jobs, id) < |jobs|
    ensures JobIndex(jobs', id) == JobIndex(jobs, id)
  {
    if jobs[0].id != id {
      IndexStays(jobs[1..], jobs'[1..], id);
    }
  }

  lemma InPlaceStays(s: Store, t: Store)
    requires InPlace(s, t)
    ensures RowsStay(s, t)
  {
    forall id | HasRun(s, id) ensures HasRun(t, id) {
      IndexStays(s.jobs, t.jobs, id);
    }
  }

  lemma ControlStays(e: Store, t: Store)
    requires SameControl(e, t)
    ensures RowsStay(e, t)
  {
    assert InPlace(e, t) by {
      forall i | 0 <= i < |e.jobs|
        ensures t.jobs[i].id == e.jobs[i].id && t.jobs[i].body == e.jobs[i].body && t.jobs[i].status == e.jobs[i].status
      {
        assert RowTrimmed(e.jobs[i], t.jobs[i]);
      }
    }
    InPlaceStays(e, t);
  }

  lemma PutStays(s: Store, t: Store, j: Job)
    requires t.name == s.name && t.jobs == PutJob(s.jobs, j) && j.body == s.name && !Queueable(j.status)
    ensures RowsStay(s, t) && HasRun(t, j.id)
  {
    InPlaceStays(s, t);
    PutIndex(s.jobs, j);
  }

  lemma {:induction false} PutIndex(jobs: seq<Job>, j: Job)
    ensures var i := JobIndex(PutJob(jobs, j), j.id); i < |PutJob(jobs, j)| && PutJob(jobs, j)[i] == j
    decreases |jobs|
  {
    if jobs == [] {
      assert PutJob(jobs, j) == [j];
    } else if jobs[0].id == j.id {
      assert PutJob(jobs, j)[0] == j;
    } else {
      PutIndex(jobs[1..], j);
      assert PutJob(jobs, j) == [jobs[0]] + PutJob(jobs[1..], j);
    }
  }

  lemma {:induction false} RecoverInPlace(s: Store)
    ensures InPlace(s, s.(jobs := RecoverRows(s.jobs, s.name)))
  {
    forall i | 0 <= i < |s.jobs|
      ensures var r := RecoverRows(s.jobs, s.name)[i];
        r.id == s.jobs[i].id && r.body == s.jobs[i].body && (!Queueable(s.jobs[i].status) ==> !Queueable(r.status))
    {
      RecoveredRows(s.jobs, s.name, i);
    }
  }

  /** Every other edit leaves this machine's runs where they are. */
  lemma OtherStays(s: Store, edit: Edit, e: Store)
    requires Fair(s, edit) && !edit.Submit? && !edit.Finish? && !edit.Recover? && Apply(s, edit) == Ok(e)
    ensures RowsStay(s, e)
  {
    match edit
    case Learn(_, asked, page) => LearnFrame(s, page.entries, !page.reset && asked.unknown);
    case Reply(peer, p) => ReplyStays(s, peer, p, e);
    case Discard(keep) => DiscardStays(s, keep, e);
    case _ => RowEditStays(s, edit, e);
  }

  lemma {:induction false} LearnFrame(s: Store, entries: seq<Published>, unknown: bool)
    requires LearnAll(s, entries, unknown).Ok?
    ensures var t := LearnAll(s, entries, unknown).value.0; t == s.(clock := t.clock, entries := t.entries)
    decreases |entries|
  {
    if entries != [] {
      if AuthorsKnown(s, entries[0].record.certificate) {
        IngestFrame(s, entries[0]);
        LearnFrame(Ingest(s, entries[0]).value, entries[1..], unknown);
      } else {
        LearnFrame(s, entries[1..], true);
      }
    }
  }

  lemma ReplyStays(s: Store, peer: string, p: Published, e: Store)
    requires peer != s.name && AcceptRunnerReply(s, peer, p) == Ok(e)
    ensures RowsStay(s, e)
  {
    if e != s {
      ReplyShape(s, peer, p);
      IngestFrame(s, p);
      ReplyRow(s, peer, p, e);
      ReplyFromPeer(s, peer, p);
      InPlaceStays(s, e);
    }
  }

  lemma ReplyFromPeer(s: Store, peer: string, p: Published)
    requires AcceptRunnerReply(s, peer, p).Ok?
    ensures p.record.certificate.invocation.body == peer
  {
  }

  lemma DiscardStays(s: Store, keep: nat, e: Store)
    requires Storage.Prune(s, keep) == Ok(e)
    ensures RowsStay(s, e)
  {
    PruneDropsOutput(s, keep, e);
    forall i | 0 <= i < |s.jobs|
      ensures e.jobs[i].id == s.jobs[i].id && e.jobs[i].body == s.jobs[i].body && e.jobs[i].status == s.jobs[i].status
    {
      assert RowKept(s.jobs[i], e.jobs[i]);
    }
    InPlaceStays(s, e);
  }

  lemma RowEditStays(s: Store, edit: Edit, e: Store)
    requires Fair(s, edit) && Apply(s, edit) == Ok(e)
    requires edit.Append? || edit.DeliveryFailed? || edit.Refuse? || IsControl(edit)
    ensures RowsStay(s, e)
  {
    if IsControl(edit) {
      ControlShape(s, edit, e);
    } else {
      RowEditInPlace(s, edit, e);
      InPlaceStays(s, e);
    }
  }

  lemma RowEditInPlace(s: Store, edit: Edit, e: Store)
    requires Fair(s, edit) && Apply(s, edit) == Ok(e) && (edit.Append? || edit.DeliveryFailed? || edit.Refuse?)
    ensures InPlace(s, e)
  {
  }

  // ---- Grants

  /** Owner decisions are numbered and each number is at one grant at most. */
  ghost predicate Numbered(grants: seq<Grant>, next: nat) {
    && (forall i :: 0 <= i < |grants| ==> grants[i].instance < next)
    && (forall i, j :: 0 <= i < j < |grants| ==> grants[i].instance != grants[j].instance)
  }

  /** Grants after an edit other than admission and completion: old ones, or a new decision. */
  ghost predicate Decided(before: seq<Grant>, after: seq<Grant>, next: nat) {
    && Numbered(after, next + 1)
    && forall g :: g in after ==> g in before || (g.instance == next && g.reservation.None?)
  }

  lemma {:induction false} RetainNumbered(grants: seq<Grant>, keep: Grant -> bool, next: nat)
    requires Numbered(grants, next)
    ensures Numbered(Retain(grants, keep), next) && forall g :: g in Retain(grants, keep) ==> g in grants
    decreases |grants|
  {
    if grants != [] {
      var rest := grants[1..];
      RetainNumbered(rest, keep, next);
      assert forall g :: g in rest ==> g.instance != grants[0].instance by {
        forall g | g in rest ensures g.instance != grants[0].instance {
          var i :| 0 <= i < |rest| && rest[i] == g;
          assert grants[i + 1] == g;
        }
      }
    }
  }

  lemma CommitGrantDecides(s: Store, g: Grant, next: nat)
    requires Numbered(s.grants, next) && g.instance == next && g.reservation.None?
    ensures Decided(s.grants, CommitGrant(s, g).grants, next)
  {
    RetainNumbered(s.grants, (x: Grant) => x.tool != g.tool, next);
  }

  lemma RemovalDecides(grants: seq<Grant>, i: nat, next: nat)
    requires Numbered(grants, next) && i < |grants|
    ensures Numbered(grants[..i] + grants[i + 1..], next)
    ensures forall g :: g in grants[..i] + grants[i + 1..] ==> g in grants
  {
  }

  function NewGrant(edit: Edit): Option<Grant> {
    match edit
    case Add(g) => Some(g)
    case Settle(_, Allow(g)) => Some(g)
    case _ => None
  }

  lemma OtherDecides(s: Store, edit: Edit, e: Store, next: nat)
    requires !edit.Submit? && !edit.Finish? && !edit.Recover? && Apply(s, edit) == Ok(e)
    requires Numbered(s.grants, next)
    requires NewGrant(edit).Some? ==> NewGrant(edit).value.instance == next && NewGrant(edit).value.reservation.None?
    ensures Decided(s.grants, e.grants, next)
  {
    match edit
    case Learn(_, asked, page) => LearnFrame(s, page.entries, !page.reset && asked.unknown);
    case Reply(peer, p) =>
      if e != s {
        ReplyShape(s, peer, p);
        IngestFrame(s, p);
      }
    case Discard(keep) => PruneDropsOutput(s, keep, e);
    case Add(g) => CommitGrantDecides(s, g, next);
    case Settle(_, Allow(g)) => CommitGrantDecides(s, g, next);
    case Remove(target) => RemovalDecides(s.grants, RemovalIndex(s.grants, target), next);
    case _ => SameGrants(s, edit, e);
  }

  lemma SameGrants(s: Store, edit: Edit, e: Store)
    requires edit.Append? || edit.DeliveryFailed? || edit.Refuse? || edit.Ask? || edit.Settle? || edit.SetPeers?
    requires NewGrant(edit).None? && Apply(s, edit) == Ok(e)
    ensures e.grants == s.grants
  {
  }

  // ---- Approvals

  /** The ID of the request that an edit may file. */
  function AskedAs(edit: Edit): Option<string> {
    match edit
    case Ask(_, _, requestId) => Some(requestId)
    case Submit(_, _, _, requestId) => Some(requestId)
    case _ => None
  }

  /** The tool whose grant the owner gives, replaces or takes away. */
  function DecidedTool(s: Store, edit: Edit): Option<string> {
    match edit
    case Add(g) => Some(g.tool)
    case Settle(_, Allow(g)) => Some(g.tool)
    case Remove(target) =>
      var i := RemovalIndex(s.grants, target);
      if i < |s.grants| then Some(s.grants[i].tool) else None
    case _ => None
  }

  lemma UpsertAsks(s: Store, from: string, tool: string, freshId: string, id: string)
    requires !IsPending(s.requests, id) && freshId != id
    ensures !IsPending(Upsert(s, from, tool, freshId).requests, id)
  {
  }

  /** Nothing but a request filed under an ID makes that ID pending. */
  lemma OnlyAskingPends(s: Store, edit: Edit, e: Store, id: string)
    requires Apply(s, edit) == Ok(e) && !IsPending(s.requests, id) && AskedAs(edit) != Some(id)
    ensures !IsPending(e.requests, id)
  {
    match edit
    case Learn(_, asked, page) => LearnFrame(s, page.entries, !page.reset && asked.unknown);
    case Reply(peer, p) =>
      if e != s {
        ReplyShape(s, peer, p);
        IngestFrame(s, p);
      }
    case Discard(keep) => PruneDropsOutput(s, keep, e);
    case Submit(c, now, permit, requestId) => AdmissionPends(s, c, now, permit, requestId, id);
    case Ask(from, tool, requestId) => UpsertAsks(s, from, tool, requestId, id);
    case Add(g) => RemainingRequests(s.requests, g.tool);
    case Remove(target) => RemainingRequests(s.requests, s.grants[RemovalIndex(s.grants, target)].tool);
    case Settle(_, d) =>
      if d.Allow? {
        RemainingRequests(s.requests, d.grant.tool);
      }
    case _ =>
  }

  lemma AdmissionPends(s: Store, c: Call, now: Now, permit: bool, requestId: string, id: string)
    requires c.argv != [] && SubmitEdit(s, c, now, permit, requestId).Ok?
    requires !IsPending(s.requests, id) && requestId != id
    ensures !IsPending(SubmitEdit(s, c, now, permit, requestId).value.store.requests, id)
  {
    var t := Bound(s, c).value;
    if c.certificate.Some? {
      BindFrame(s, c.certificate.value, t);
    }
    UpsertAsks(t, c.from, c.argv[0], requestId, id);
  }

  /** A decision leaves no request for its tool pending. */
  lemma DecisionSettles(s: Store, edit: Edit, e: Store, id: string)
    requires Apply(s, edit) == Ok(e) && DecidedTool(s, edit).Some?
    requires forall r :: r in s.requests && r.id == id ==> Names.FileName(r.tool) == DecidedTool(s, edit).value
    ensures !IsPending(e.requests, id)
  {
    RemainingRequests(s.requests, DecidedTool(s, edit).value);
  }

  ghost predicate CommittedRun(w: Widths, states: seq<Store>, edits: seq<Edit>) {
    && |states| == |edits| + 1
    && forall n {:trigger edits[n]} :: 0 <= n < |edits| ==>
         Apply(states[n], edits[n]).Ok? && Commit(w, Apply(states[n], edits[n]).value, states[n]) == Ok(states[n + 1])
  }

  /** After the owner gave, replaced or took away the grant of a tool, an approval or refusal of a request that
      was pending for that tool fails for good: it cannot supersede the decision. */
  lemma StaleAnswerFails(w: Widths, states: seq<Store>, edits: seq<Edit>, i: nat, j: nat, id: string, d: Decision)
    requires CommittedRun(w, states, edits) && i < j < |states| && DecidedTool(states[i], edits[i]).Some?
    requires forall r :: r in states[i].requests && r.id == id ==>
      Names.FileName(r.tool) == DecidedTool(states[i], edits[i]).value
    requires forall n {:trigger edits[n]} :: i <= n < j ==> AskedAs(edits[n]) != Some(id)
    ensures Decide(states[j], id, d).Err?
  {
    var decision := edits[i];
    DecidedIsSettled(w, states[i], decision, states[i + 1], id);
    for n := i + 1 to j
      invariant !IsPending(states[n].requests, id)
    {
      var edit := edits[n];
      StaysSettled(w, states[n], edit, states[n + 1], id);
    }
    RequestIndexIs(states[j].requests, id);
  }

  lemma DecidedIsSettled(w: Widths, s: Store, edit: Edit, t: Store, id: string)
    requires Apply(s, edit).Ok? && Commit(w, Apply(s, edit).value, s) == Ok(t)
    requires DecidedTool(s, edit).Some? && AskedAs(edit) != Some(id)
    requires forall r :: r in s.requests && r.id == id ==> Names.FileName(r.tool) == DecidedTool(s, edit).value
    ensures !IsPending(t.requests, id)
  {
    DecisionSettles(s, edit, Apply(s, edit).value, id);
    CommitControl(w, Apply(s, edit).value, s, t);
  }

  lemma StaysSettled(w: Widths, s: Store, edit: Edit, t: Store, id: string)
    requires Apply(s, edit).Ok? && Commit(w, Apply(s, edit).value, s) == Ok(t)
    requires AskedAs(edit) != Some(id) && !IsPending(s.requests, id)
    ensures !IsPending(t.requests, id)
  {
    OnlyAskingPends(s, edit, Apply(s, edit).value, id);
    CommitControl(w, Apply(s, edit).value, s, t);
  }

  // ---- The sidecar

  datatype Phase = Executing | Ended(outcome: Outcome)
  datatype Task = Task(grant: Grant, run: Job, phase: Phase)

  datatype Event =
    | Started(id: string, instance: nat, once: bool)
    | Stopped(id: string, success: Option<bool>)

  /** `log` records what happened to processes and `next` numbers owner decisions; no step reads
      either. A crash takes the tasks; their processes may go on. */
  datatype Sidecar = Sidecar(machine: Machine, tasks: map<string, Task>, log: seq<Event>, next: nat)

  datatype Action =
    | Submit(call: Call, now: Now, permit: bool, requestId: string, save: Save)
    | ProcessEnds(id: string, outcome: Outcome)
    | Complete(id: string, reason: string, save: Save)
    | Other(edit: Edit, save: Save)
    | Restart(save: Save)

  function MarkRow(s: Store, id: string, reason: string): Store {
    var i := JobIndex(s.jobs, id);
    if i == |s.jobs| then s else s.(jobs := s.jobs[i := s.jobs[i].(status := Uncertain(reason))])
  }

  predicate AnyRunning(s: Store) {
    exists j :: j in s.jobs && j.body == s.name && j.status.Running?
  }

  ghost function AfterSubmit(w: Widths, a: Sidecar, x: Action): Sidecar
    requires x.Submit?
  {
    var s, c := a.machine.mem, x.call;
    var gate := Gate(s, c);
    if gate.Err? || gate.value.Some? || c.argv == [] then a else
    AfterAdmission(w, a, x, SubmitEdit(s, c, x.now, x.permit, x.requestId))
  }

  ghost function AfterAdmission(w: Widths, a: Sidecar, x: Action, edited: Result<Accepted>): Sidecar
    requires x.Submit?
  {
    var after := UpdateWith(w, a.machine, if edited.Ok? then Ok(edited.value.store) else Err(edited.error), x.save);
    if after.1.Ok? && edited.Ok? && edited.value.run.Some? then
      var g := edited.value.run.value;
      a.(machine := after.0,
         tasks := a.tasks[x.call.id := Task(g, NewRow(a.machine.mem, x.call, Running), Executing)],
         log := a.log + [Started(x.call.id, g.instance, g.once)])
    else a.(machine := after.0)
  }

  ghost function AfterComplete(w: Widths, a: Sidecar, x: Action): Sidecar
    requires x.Complete? && x.id in a.tasks && a.tasks[x.id].phase.Ended?
  {
    var task := a.tasks[x.id];
    var after := UpdateWith(w, a.machine, FinishEdit(a.machine.mem, task.grant, task.run, task.phase.outcome), x.save);
    a.(tasks := a.tasks - {x.id},
       machine := if after.1.Ok? then after.0 else after.0.(mem := MarkRow(after.0.mem, x.id, x.reason)))
  }

  ghost function AfterRestart(w: Widths, a: Sidecar, x: Action): Sidecar
    requires x.Restart?
  {
    var m := Machine(a.machine.disk, a.machine.disk, false);
    var rows := m.mem.(jobs := RecoverRows(m.mem.jobs, m.mem.name));
    var after := if AnyRunning(m.mem) then UpdateWith(w, m, Ok(rows), x.save) else (m, Ok(()));
    a.(tasks := map[], machine := if after.1.Ok? then after.0 else Machine(rows, after.0.disk, true))
  }

  ghost predicate OtherStep(w: Widths, a: Sidecar, x: Action, b: Sidecar)
    requires x.Other?
  {
    && !x.edit.Submit? && !x.edit.Finish? && !x.edit.Recover? && Fair(a.machine.mem, x.edit)
    && (NewGrant(x.edit).Some? ==>
          NewGrant(x.edit).value.instance == a.next && NewGrant(x.edit).value.reservation.None?)
    && b == a.(machine := UpdateWith(w, a.machine, Apply(a.machine.mem, x.edit), x.save).0, next := a.next + 1)
  }

  ghost predicate Step(w: Widths, a: Sidecar, x: Action, b: Sidecar) {
    match x
    case Submit(_, _, _, _, _) => b == AfterSubmit(w, a, x)
    case ProcessEnds(id, outcome) =>
      && id in a.tasks && a.tasks[id].phase.Executing?
      && b == a.(tasks := a.tasks[id := a.tasks[id].(phase := Ended(outcome))],
                 log := a.log + [Stopped(id, Success(outcome))])
    case Complete(id, _, _) => id in a.tasks && a.tasks[id].phase.Ended? && b == AfterComplete(w, a, x)
    case Other(_, _) => OtherStep(w, a, x, b)
    case Restart(_) => b == AfterRestart(w, a, x)
  }

  // ---- What holds of every store, in memory and on disk

  /** Every process start has its row here, past the queue. */
  ghost predicate Recorded(x: Store, log: seq<Event>) {
    forall i :: 0 <= i < |log| && log[i].Started? ==> HasRun(x, log[i].id)
  }

  /** A reservation belongs to an admitted row, and to the decision its run was started under. */
  ghost predicate Reserved(x: Store, log: seq<Event>) {
    forall g :: g in x.grants && g.reservation.Some? ==>
      && HasRun(x, g.reservation.value)
      && forall i :: 0 <= i < |log| && log[i].Started? && log[i].id == g.reservation.value ==>
          log[i].instance == g.instance
  }

  predicate Unfailed(log: seq<Event>, i: nat)
    requires i < |log|
  {
    log[i].Started? && log[i].once && Stopped(log[i].id, Some(false)) !in log
  }

  /** While a once run is not known to have failed its decision stays reserved by it. */
  ghost predicate HeldFast(grants: seq<Grant>, log: seq<Event>) {
    forall i, g :: 0 <= i < |log| && Unfailed(log, i) && g in grants && g.instance == log[i].instance ==>
      g.reservation == Some(log[i].id)
  }

  ghost predicate StoreOk(x: Store, log: seq<Event>, next: nat) {
    && Numbered(x.grants, next) && Recorded(x, log) && Reserved(x, log) && HeldFast(x.grants, log)
  }

  /** Each ID starts at most one process, and exits at most once. */
  ghost predicate AtMostOnce(log: seq<Event>) {
    && (forall i, j :: 0 <= i < j < |log| && log[i].Started? && log[j].Started? ==> log[i].id != log[j].id)
    && (forall i, j :: 0 <= i < j < |log| && log[i].Stopped? && log[j].Stopped? ==> log[i].id != log[j].id)
  }

  /** A once decision starts a second run only after its first has exited without success. */
  ghost predicate OnceConserved(log: seq<Event>) {
    forall i, j :: 0 <= i < j < |log| && log[i].Started? && log[j].Started? && log[i].once && log[j].once
                   && log[i].instance == log[j].instance ==>
      exists k :: i < k < j && log[k] == Stopped(log[i].id, Some(false))
  }

  ghost predicate TasksOk(a: Sidecar) {
    forall id :: id in a.tasks ==>
      var t := a.tasks[id];
      && t.run.id == id && t.run.body == a.machine.mem.name && Started(id, t.grant.instance, t.grant.once) in a.log
      && (t.phase.Executing? ==> forall k :: 0 <= k < |a.log| && a.log[k].Stopped? ==> a.log[k].id != id)
      && (t.phase.Ended? ==> Stopped(id, Success(t.phase.outcome)) in a.log)
  }

  ghost predicate StopsFollow(log: seq<Event>) {
    forall k :: 0 <= k < |log| && log[k].Stopped? ==>
      exists i :: 0 <= i < k && log[i].Started? && log[i].id == log[k].id
  }

  ghost predicate Inv(a: Sidecar) {
    && a.machine.mem.name == a.machine.disk.name
    && StoreOk(a.machine.mem, a.log, a.next) && StoreOk(a.machine.disk, a.log, a.next)
    && AtMostOnce(a.log) && OnceConserved(a.log) && StopsFollow(a.log) && Known(a.log, a.next) && TasksOk(a)
  }

  ghost predicate Known(log: seq<Event>, next: nat) {
    forall i :: 0 <= i < |log| && log[i].Started? ==> log[i].instance < next
  }

  // ---- How stores change

  lemma SameGrantsOk(x: Store, y: Store, log: seq<Event>, next: nat)
    requires StoreOk(x, log, next) && RowsStay(x, y) && y.grants == x.grants
    ensures StoreOk(y, log, next)
  {
  }

  lemma DecidedOk(x: Store, y: Store, log: seq<Event>, next: nat)
    requires StoreOk(x, log, next) && Known(log, next) && RowsStay(x, y) && Decided(x.grants, y.grants, next)
    ensures StoreOk(y, log, next + 1)
  {
  }

  lemma StoppedOk(x: Store, log: seq<Event>, next: nat, e: Event)
    requires StoreOk(x, log, next) && e.Stopped?
    ensures StoreOk(x, log + [e], next)
  {
    UnfailedShrinks(log, e);
  }

  lemma UnfailedShrinks(log: seq<Event>, e: Event)
    ensures forall i :: 0 <= i < |log| && Unfailed(log + [e], i) ==> Unfailed(log, i)
  {
    assert forall x :: x in log ==> x in log + [e];
  }

  /** The grants after an admission: one free once-grant may now be reserved by the new row. */
  ghost predicate Admits(before: seq<Grant>, after: seq<Grant>, id: string, run: Option<Grant>) {
    match run
    case None => after == before
    case Some(g) =>
      exists i ::
        && 0 <= i < |before| && before[i] == g && g.reservation.None?
        && after == if g.once then before[i := g.(reservation := Some(id))] else before
  }

  lemma SubmitAdmits(s: Store, c: Call, now: Now, permit: bool, requestId: string, x: Accepted)
    requires c.argv != [] && SubmitEdit(s, c, now, permit, requestId) == Ok(x)
    ensures Admits(s.grants, x.store.grants, c.id, x.run)
    ensures x.store.name == s.name
    ensures exists status: Status ::
      !Queueable(status) && x.store.jobs == PutJob(s.jobs, Job(c.id, c.from, s.name, c.argv, status, [], []))
  {
    var t := SubmitShape(s, c, now, permit, requestId, x);
    AdmitGrants(t, c, now, permit, requestId, x);
  }

  lemma AdmitGrants(t: Store, c: Call, now: Now, permit: bool, requestId: string, x: Accepted)
    requires c.argv != [] && Admit(t, c, now, permit, requestId) == Ok(x)
    ensures Admits(t.grants, x.store.grants, c.id, x.run)
  {
    if x.run.Some? {
      var i := GrantIndex(t.grants, c.argv[0]);
      assert t.grants[i] == x.run.value && x.run.value.tool == c.argv[0];
    }
  }

  lemma AdmittedGrantsOk(x: Store, y: Store, log: seq<Event>, next: nat, id: string, run: Option<Grant>)
    requires StoreOk(x, log, next) && RowsStay(x, y) && HasRun(y, id) && Admits(x.grants, y.grants, id, run)
    requires !HasRun(x, id)
    ensures StoreOk(y, log, next)
    ensures run.Some? ==>
      run.value.instance < next && StoreOk(y, log + [Started(id, run.value.instance, run.value.once)], next)
  {
    if run.Some? {
      StartedOk(x, y, log, next, id, run.value);
    }
  }

  lemma StartedOk(x: Store, y: Store, log: seq<Event>, next: nat, id: string, g: Grant)
    requires StoreOk(x, log, next) && RowsStay(x, y) && HasRun(y, id) && Admits(x.grants, y.grants, id, Some(g))
    requires !HasRun(x, id)
    ensures g.instance < next && StoreOk(y, log, next)
    ensures StoreOk(y, log + [Started(id, g.instance, g.once)], next)
    ensures forall i :: 0 <= i < |log| && Unfailed(log, i) ==> log[i].instance != g.instance
  {
    var at :| 0 <= at < |x.grants| && x.grants[at] == g && g.reservation.None?
              && y.grants == if g.once then x.grants[at := g.(reservation := Some(id))] else x.grants;
    AdmittedGrants(x.grants, y.grants, at, g, id, next);
    UnfailedShrinks(log, Started(id, g.instance, g.once));
    StartedReserved(x, y, log, id, g);
    StartedHeld(x.grants, y.grants, log, id, g);
  }

  lemma AdmittedGrants(before: seq<Grant>, after: seq<Grant>, at: nat, g: Grant, id: string, next: nat)
    requires Numbered(before, next) && at < |before| && before[at] == g && g.reservation.None?
    requires after == if g.once then before[at := g.(reservation := Some(id))] else before
    ensures Numbered(after, next) && g in before
    ensures forall h :: h in after ==>
      (h in before && (g.once ==> h.instance != g.instance)) || (g.once && h == g.(reservation := Some(id)))
  {
    forall h | h in after
      ensures (h in before && (g.once ==> h.instance != g.instance)) || (g.once && h == g.(reservation := Some(id)))
    {
      var k :| 0 <= k < |after| && after[k] == h;
      assert k != at ==> before[k].instance != before[at].instance;
    }
  }

  lemma StartedReserved(x: Store, y: Store, log: seq<Event>, id: string, g: Grant)
    requires Recorded(x, log) && Reserved(x, log) && RowsStay(x, y) && HasRun(y, id) && !HasRun(x, id)
    requires forall h :: h in y.grants ==> h in x.grants || (g.once && h == g.(reservation := Some(id)))
    ensures Reserved(y, log) && Recorded(y, log)
    ensures Reserved(y, log + [Started(id, g.instance, g.once)]) && Recorded(y, log + [Started(id, g.instance, g.once)])
  {
  }

  lemma StartedHeld(before: seq<Grant>, after: seq<Grant>, log: seq<Event>, id: string, g: Grant)
    requires HeldFast(before, log) && g in before && g.reservation.None?
    requires forall h :: h in after ==>
      (h in before && (g.once ==> h.instance != g.instance)) || (g.once && h == g.(reservation := Some(id)))
    requires forall i :: 0 <= i < |log| && Unfailed(log + [Started(id, g.instance, g.once)], i) ==> Unfailed(log, i)
    ensures HeldFast(after, log) && HeldFast(after, log + [Started(id, g.instance, g.once)])
    ensures forall i :: 0 <= i < |log| && Unfailed(log, i) ==> log[i].instance != g.instance
  {
  }

  lemma {:induction false} ReleaseCases(grants: seq<Grant>, g: Grant, id: string, success: Option<bool>)
    ensures var after := Release(grants, g, id, success);
      || after == grants
      || (exists i :: 0 <= i < |grants| && grants[i].reservation == Some(id) && success.Some?
            && after == if success.value then grants[..i] + grants[i + 1..]
                else grants[i := grants[i].(reservation := None)])
  {
    var i := ReservedIndex(grants, g.tool, id);
    if g.once && i < |grants| && success.Some? {
      assert grants[i].reservation == Some(id);
    }
  }

  lemma ReleasedOk(x: Store, y: Store, log: seq<Event>, next: nat, g: Grant, id: string, success: Option<bool>)
    requires StoreOk(x, log, next) && RowsStay(x, y) && y.grants == Release(x.grants, g, id, success)
    requires Stopped(id, success) in log
    ensures StoreOk(y, log, next)
  {
    ReleaseCases(x.grants, g, id, success);
    if y.grants != x.grants {
      var i :| 0 <= i < |x.grants| && x.grants[i].reservation == Some(id) && success.Some?
               && y.grants == if success.value then x.grants[..i] + x.grants[i + 1..]
                              else x.grants[i := x.grants[i].(reservation := None)];
      if success.value {
        RemovalDecides(x.grants, i, next);
      } else {
        FreedOk(x, y, log, next, i, id);
      }
    }
  }

  lemma FreedOk(x: Store, y: Store, log: seq<Event>, next: nat, i: nat, id: string)
    requires StoreOk(x, log, next) && RowsStay(x, y) && Stopped(id, Some(false)) in log
    requires i < |x.grants| && x.grants[i].reservation == Some(id)
    requires y.grants == x.grants[i := x.grants[i].(reservation := None)]
    ensures StoreOk(y, log, next)
  {
    forall m, h | 0 <= m < |log| && Unfailed(log, m) && h in y.grants && h.instance == log[m].instance
      ensures h.reservation == Some(log[m].id)
    {
      var k :| 0 <= k < |y.grants| && y.grants[k] == h;
      assert x.grants[k] in x.grants;
    }
  }

  // ---- How the log grows

  lemma StartedLog(log: seq<Event>, next: nat, id: string, g: Grant)
    requires AtMostOnce(log) && OnceConserved(log) && StopsFollow(log) && Known(log, next) && g.instance < next
    requires forall i :: 0 <= i < |log| && log[i].Started? ==> log[i].id != id
    requires forall i :: 0 <= i < |log| && Unfailed(log, i) ==> log[i].instance != g.instance
    ensures var log' := log + [Started(id, g.instance, g.once)];
      AtMostOnce(log') && OnceConserved(log') && StopsFollow(log') && Known(log', next)
  {
    var log' := log + [Started(id, g.instance, g.once)];
    forall i, j | 0 <= i < j < |log'| && log'[i].Started? && log'[j].Started? && log'[i].once && log'[j].once
                  && log'[i].instance == log'[j].instance
      ensures exists k :: i < k < j && log'[k] == Stopped(log'[i].id, Some(false))
    {
      if j == |log| {
        assert !Unfailed(log, i);
        var k :| 0 <= k < |log| && log[k] == Stopped(log[i].id, Some(false));
        var m :| 0 <= m < k && log[m].Started? && log[m].id == log[k].id;
        assert m == i;
        assert log'[k] == Stopped(log'[i].id, Some(false));
      } else {
        var k :| i < k < j && log[k] == Stopped(log[i].id, Some(false));
        assert log'[k] == log[k];
      }
    }
    forall k | 0 <= k < |log'| && log'[k].Stopped?
      ensures exists i :: 0 <= i < k && log'[i].Started? && log'[i].id == log'[k].id
    {
      var i :| 0 <= i < k && log[i].Started? && log[i].id == log[k].id;
      assert log'[i] == log[i];
    }
  }

  lemma StoppedLog(log: seq<Event>, next: nat, id: string, success: Option<bool>)
    requires AtMostOnce(log) && OnceConserved(log) && StopsFollow(log) && Known(log, next)
    requires forall k :: 0 <= k < |log| && log[k].Stopped? ==> log[k].id != id
    requires exists i :: 0 <= i < |log| && log[i].Started? && log[i].id == id
    ensures var log' := log + [Stopped(id, success)];
      AtMostOnce(log') && OnceConserved(log') && StopsFollow(log') && Known(log', next)
  {
    var log' := log + [Stopped(id, success)];
    forall i, j | 0 <= i < j < |log'| && log'[i].Started? && log'[j].Started? && log'[i].once && log'[j].once
                  && log'[i].instance == log'[j].instance
      ensures exists k :: i < k < j && log'[k] == Stopped(log'[i].id, Some(false))
    {
      var k :| i < k < j && log[k] == Stopped(log[i].id, Some(false));
      assert log'[k] == log[k];
    }
    var at :| 0 <= at < |log| && log[at].Started? && log[at].id == id;
    assert log'[at] == log[at];
    forall k | 0 <= k < |log'| && log'[k].Stopped?
      ensures exists i :: 0 <= i < k && log'[i].Started? && log'[i].id == log'[k].id
    {
      if k < |log| {
        var i :| 0 <= i < k && log[i].Started? && log[i].id == log[k].id;
        assert log'[i] == log[i];
      }
    }
  }

  // ---- Each step

  /** A committed update carries to the saved store whatever holds of its edit. */
  lemma SavedOk(w: Widths, e: Store, s: Store, t: Store, log: seq<Event>, next: nat)
    requires StoreOk(e, log, next) && Commit(w, e, s) == Ok(t)
    ensures StoreOk(t, log, next) && t.name == e.name
  {
    CommitControl(w, e, s, t);
    ControlStays(e, t);
    SameGrantsOk(e, t, log, next);
  }

  ghost predicate MachineOk(m: Machine, log: seq<Event>, next: nat) {
    m.mem.name == m.disk.name && StoreOk(m.mem, log, next) && StoreOk(m.disk, log, next)
  }

  /** An update that saves or may have saved keeps both stores in order if its edit does. */
  lemma UpdateOk(w: Widths, m: Machine, edited: Result<Store>, save: Save, log: seq<Event>, next: nat)
    requires MachineOk(m, log, next)
    requires edited.Ok? ==> StoreOk(edited.value, log, next) && edited.value.name == m.mem.name
    ensures MachineOk(UpdateWith(w, m, edited, save).0, log, next)
    ensures UpdateWith(w, m, edited, save).0.mem.name == m.mem.name
  {
    if !m.poisoned && edited.Ok? && Commit(w, edited.value, m.mem).Ok? {
      SavedOk(w, edited.value, m.mem, Commit(w, edited.value, m.mem).value, log, next);
    }
  }

  lemma UpdateSaved(w: Widths, m: Machine, edited: Result<Store>, save: Save) returns (t: Store)
    requires UpdateWith(w, m, edited, save).1.Ok?
    ensures edited.Ok? && Commit(w, edited.value, m.mem) == Ok(t)
    ensures UpdateWith(w, m, edited, save).0 == Machine(t, t, false)
  {
    t := Commit(w, edited.value, m.mem).value;
  }

  lemma MarkOk(s: Store, id: string, reason: string, log: seq<Event>, next: nat)
    requires StoreOk(s, log, next)
    ensures StoreOk(MarkRow(s, id, reason), log, next) && MarkRow(s, id, reason).name == s.name
  {
    InPlaceStays(s, MarkRow(s, id, reason));
    SameGrantsOk(s, MarkRow(s, id, reason), log, next);
  }

  lemma GateFree(s: Store, c: Call)
    requires Gate(s, c) == Ok(None)
    ensures !HasRun(s, c.id)
  {
  }

  lemma SubmitEdited(s: Store, c: Call, now: Now, permit: bool, requestId: string, x: Accepted, log: seq<Event>,
                     next: nat)
    requires StoreOk(s, log, next) && Gate(s, c) == Ok(None) && c.argv != []
    requires SubmitEdit(s, c, now, permit, requestId) == Ok(x)
    ensures StoreOk(x.store, log, next) && x.store.name == s.name
    ensures x.run.Some? ==>
      && x.run.value.instance < next
      && StoreOk(x.store, log + [Started(c.id, x.run.value.instance, x.run.value.once)], next)
      && (forall i :: 0 <= i < |log| && Unfailed(log, i) ==> log[i].instance != x.run.value.instance)
  {
    GateFree(s, c);
    SubmitAdmits(s, c, now, permit, requestId, x);
    var status: Status :|
      !Queueable(status) && x.store.jobs == PutJob(s.jobs, Job(c.id, c.from, s.name, c.argv, status, [], []));
    PutStays(s, x.store, Job(c.id, c.from, s.name, c.argv, status, [], []));
    AdmittedGrantsOk(s, x.store, log, next, c.id, x.run);
    if x.run.Some? {
      StartedOk(s, x.store, log, next, c.id, x.run.value);
    }
  }

  lemma SubmitKeeps(w: Widths, a: Sidecar, x: Action, b: Sidecar)
    requires x.Submit? && Inv(a) && b == AfterSubmit(w, a, x)
    ensures Inv(b)
  {
    var s, c := a.machine.mem, x.call;
    var gate := Gate(s, c);
    if gate.Ok? && gate.value.None? && c.argv != [] {
      var edited := SubmitEdit(s, c, x.now, x.permit, x.requestId);
      var e := if edited.Ok? then Ok(edited.value.store) else Err(edited.error);
      if edited.Ok? {
        SubmitEdited(s, c, x.now, x.permit, x.requestId, edited.value, a.log, a.next);
      }
      UpdateOk(w, a.machine, e, x.save, a.log, a.next);
      if UpdateWith(w, a.machine, e, x.save).1.Ok? && edited.Ok? && edited.value.run.Some? {
        StartKeeps(w, a, x, edited.value, b);
      }
    }
  }

  lemma StartKeeps(w: Widths, a: Sidecar, x: Action, accepted: Accepted, b: Sidecar)
    requires x.Submit? && Inv(a) && Gate(a.machine.mem, x.call) == Ok(None) && accepted.run.Some? && x.call.argv != []
    requires SubmitEdit(a.machine.mem, x.call, x.now, x.permit, x.requestId) == Ok(accepted)
    requires UpdateWith(w, a.machine, Ok(accepted.store), x.save).1.Ok?
    requires b == a.(
      machine := UpdateWith(w, a.machine, Ok(accepted.store), x.save).0,
      tasks := a.tasks[x.call.id := Task(accepted.run.value, NewRow(a.machine.mem, x.call, Running), Executing)],
      log := a.log + [Started(x.call.id, accepted.run.value.instance, accepted.run.value.once)])
    ensures Inv(b)
  {
    var s, id, g := a.machine.mem, x.call.id, accepted.run.value;
    SubmitEdited(s, x.call, x.now, x.permit, x.requestId, accepted, a.log, a.next);
    var t := UpdateSaved(w, a.machine, Ok(accepted.store), x.save);
    SavedOk(w, accepted.store, s, t, b.log, a.next);
    GateFree(s, x.call);
    StartedLog(a.log, a.next, id, g);
    StartedTasks(a, b, id, Task(g, NewRow(s, x.call, Running), Executing));
  }

  lemma StartedTasks(a: Sidecar, b: Sidecar, id: string, task: Task)
    requires TasksOk(a) && StopsFollow(a.log) && Recorded(a.machine.mem, a.log) && !HasRun(a.machine.mem, id)
    requires task.run.id == id && task.run.body == a.machine.mem.name == b.machine.mem.name && task.phase.Executing?
    requires b.tasks == a.tasks[id := task] && b.log == a.log + [Started(id, task.grant.instance, task.grant.once)]
    ensures TasksOk(b)
  {
    assert forall e :: e in a.log ==> e in b.log;
    assert b.log[|a.log|] in b.log;
    forall k | 0 <= k < |a.log| && a.log[k].Stopped? ensures a.log[k].id != id {
      var i :| 0 <= i < k && a.log[i].Started? && a.log[i].id == a.log[k].id;
    }
  }

  lemma ProcessEndKeeps(a: Sidecar, id: string, o: Outcome, b: Sidecar)
    requires Inv(a) && id in a.tasks && a.tasks[id].phase.Executing?
    requires b == a.(tasks := a.tasks[id := a.tasks[id].(phase := Ended(o))], log := a.log + [Stopped(id, Success(o))])
    ensures Inv(b)
  {
    StoppedOk(a.machine.mem, a.log, a.next, Stopped(id, Success(o)));
    StoppedOk(a.machine.disk, a.log, a.next, Stopped(id, Success(o)));
    var task := a.tasks[id];
    var i :| 0 <= i < |a.log| && a.log[i] == Started(id, task.grant.instance, task.grant.once);
    StoppedLog(a.log, a.next, id, Success(o));
    StoppedTasks(a, id, o, b);
  }

  lemma StoppedTasks(a: Sidecar, id: string, o: Outcome, b: Sidecar)
    requires TasksOk(a) && id in a.tasks && b.machine == a.machine
    requires b.tasks == a.tasks[id := a.tasks[id].(phase := Ended(o))] && b.log == a.log + [Stopped(id, Success(o))]
    ensures TasksOk(b)
  {
    assert forall e :: e in a.log ==> e in b.log;
    assert b.log[|a.log|] in b.log;
  }

  lemma FinishedStays(s: Store, g: Grant, run: Job, o: Outcome, e: Store)
    requires run.body == s.name && FinishEdit(s, g, run, o) == Ok(e)
    ensures RowsStay(s, e) && e.grants == Release(s.grants, g, run.id, Success(o)) && e.name == s.name
  {
    InPlaceStays(s, e);
  }

  lemma CompleteKeeps(w: Widths, a: Sidecar, x: Action, b: Sidecar)
    requires x.Complete? && Inv(a) && x.id in a.tasks && a.tasks[x.id].phase.Ended? && b == AfterComplete(w, a, x)
    ensures Inv(b)
  {
    var s, task := a.machine.mem, a.tasks[x.id];
    var edited := FinishEdit(s, task.grant, task.run, task.phase.outcome);
    if edited.Ok? {
      FinishedStays(s, task.grant, task.run, task.phase.outcome, edited.value);
      ReleasedOk(s, edited.value, a.log, a.next, task.grant, x.id, Success(task.phase.outcome));
    }
    UpdateOk(w, a.machine, edited, x.save, a.log, a.next);
    var m := UpdateWith(w, a.machine, edited, x.save).0;
    MarkOk(m.mem, x.id, x.reason, a.log, a.next);
  }

  lemma OtherKeeps(w: Widths, a: Sidecar, x: Action, b: Sidecar)
    requires x.Other? && Inv(a) && OtherStep(w, a, x, b)
    ensures Inv(b)
  {
    var s := a.machine.mem;
    var edited := Apply(s, x.edit);
    LaterOk(s, a.log, a.next);
    LaterOk(a.machine.disk, a.log, a.next);
    if edited.Ok? {
      OtherStays(s, x.edit, edited.value);
      OtherDecides(s, x.edit, edited.value, a.next);
      DecidedOk(s, edited.value, a.log, a.next);
    }
    UpdateOk(w, a.machine, edited, x.save, a.log, a.next + 1);
  }

  lemma LaterOk(s: Store, log: seq<Event>, next: nat)
    requires StoreOk(s, log, next)
    ensures StoreOk(s, log, next + 1)
  {
  }

  lemma RestartKeeps(w: Widths, a: Sidecar, x: Action, b: Sidecar)
    requires x.Restart? && Inv(a) && b == AfterRestart(w, a, x)
    ensures Inv(b)
  {
    var disk := a.machine.disk;
    var m := Machine(disk, disk, false);
    var rows := disk.(jobs := RecoverRows(disk.jobs, disk.name));
    RecoverInPlace(disk);
    InPlaceStays(disk, rows);
    SameGrantsOk(disk, rows, a.log, a.next);
    UpdateOk(w, m, Ok(rows), x.save, a.log, a.next);
  }

  lemma StepKeeps(w: Widths, a: Sidecar, x: Action, b: Sidecar)
    requires Inv(a) && Step(w, a, x, b)
    ensures Inv(b)
  {
    match x
    case Submit(_, _, _, _, _) => SubmitKeeps(w, a, x, b);
    case ProcessEnds(id, o) => ProcessEndKeeps(a, id, o, b);
    case Complete(_, _, _) => CompleteKeeps(w, a, x, b);
    case Other(_, _) => OtherKeeps(w, a, x, b);
    case Restart(_) => RestartKeeps(w, a, x, b);
  }

  lemma EveryStepKeeps(w: Widths)
    ensures forall a, x, b :: Inv(a) && Step(w, a, x, b) ==> Inv(b)
  {
    forall a, x, b | Inv(a) && Step(w, a, x, b) ensures Inv(b) {
      StepKeeps(w, a, x, b);
    }
  }

  // ---- Every run

  /** A sidecar that has started nothing; its grants are not reserved. */
  ghost predicate Init(a: Sidecar) {
    && a.log == [] && a.tasks == map[]
    && a.machine.mem == a.machine.disk && Numbered(a.machine.mem.grants, a.next)
    && forall g :: g in a.machine.mem.grants ==> g.reservation.None?
  }

  ghost predicate Run(w: Widths, states: seq<Sidecar>, actions: seq<Action>) {
    && |states| == |actions| + 1 && Init(states[0])
    && forall i {:trigger actions[i]} :: 0 <= i < |actions| ==> Step(w, states[i], actions[i], states[i + 1])
  }

  lemma RunsKeepInv(w: Widths, states: seq<Sidecar>, actions: seq<Action>, i: nat)
    requires Run(w, states, actions) && i < |states|
    ensures Inv(states[i])
  {
    EveryStepKeeps(w);
    for n := 0 to i
      invariant Inv(states[n])
    {
      var x := actions[n];
    }
  }

  /** Whatever is delivered again, retried, crashed, restarted or saved with an unknown result, one
      job ID starts at most one process here, and every ID that did has a row past the queue, in
      memory and in the file. */
  lemma OneStartPerId(w: Widths, states: seq<Sidecar>, actions: seq<Action>, n: nat, i: nat)
    requires Run(w, states, actions) && n < |states| && i < |states[n].log| && states[n].log[i].Started?
    ensures forall j :: 0 <= j < |states[n].log| && j != i && states[n].log[j].Started? ==>
      states[n].log[j].id != states[n].log[i].id
    ensures HasRun(states[n].machine.mem, states[n].log[i].id) && HasRun(states[n].machine.disk, states[n].log[i].id)
  {
    RunsKeepInv(w, states, actions, n);
  }

  lemma ConservedPair(log: seq<Event>, i: nat, j: nat)
    requires AtMostOnce(log) && OnceConserved(log) && i < j < |log|
    requires log[i].Started? && log[j].Started? && log[i].once && log[j].once && log[i].instance == log[j].instance
    ensures exists k :: i < k < j && log[k] == Stopped(log[i].id, Some(false))
    ensures forall k :: 0 <= k < |log| && log[k].Stopped? && log[k].id == log[i].id ==> log[k].success == Some(false)
  {
    var k :| i < k < j && log[k] == Stopped(log[i].id, Some(false));
  }

  /** Of all the runs one once-decision ever starts, at most one is still going, lost or successful:
      each earlier one exited without success before the next was started. */
  lemma OnceGrantConserved(w: Widths, states: seq<Sidecar>, actions: seq<Action>, n: nat, i: nat, j: nat)
    requires Run(w, states, actions) && n < |states| && i < j < |states[n].log|
    requires var log := states[n].log;
      log[i].Started? && log[j].Started? && log[i].once && log[j].once && log[i].instance == log[j].instance
    ensures var log := states[n].log;
      && (exists k :: i < k < j && log[k] == Stopped(log[i].id, Some(false)))
      && (forall k :: 0 <= k < |log| && log[k].Stopped? && log[k].id == log[i].id ==> log[k].success == Some(false))
  {
    RunsKeepInv(w, states, actions, n);
    ConservedPair(states[n].log, i, j);
  }

  /** A completion touches no decision but the one its own run was started under. */
  lemma OldRunsLeaveNewGrants(w: Widths, states: seq<Sidecar>, actions: seq<Action>, n: nat, id: string, g: Grant)
    requires Run(w, states, actions) && n < |states| && id in states[n].tasks
    requires g in states[n].machine.mem.grants && g.instance != states[n].tasks[id].grant.instance
    ensures var task := states[n].tasks[id];
      forall success :: g in Release(states[n].machine.mem.grants, task.grant, id, success)
  {
    RunsKeepInv(w, states, actions, n);
    var a := states[n];
    var grants, task := a.machine.mem.grants, a.tasks[id];
    var m :| 0 <= m < |a.log| && a.log[m] == Started(id, task.grant.instance, task.grant.once);
    forall success | true ensures g in Release(grants, task.grant, id, success) {
      assert forall h :: h in grants && h.reservation == Some(id) ==> h.instance == a.log[m].instance;
      ReleaseLeavesOthers(grants, task.grant, id, success, g);
    }
  }

  lemma ReleaseLeavesOthers(grants: seq<Grant>, mine: Grant, id: string, success: Option<bool>, g: Grant)
    requires g in grants && forall h :: h in grants && h.reservation == Some(id) ==> h.instance != g.instance
    ensures g in Release(grants, mine, id, success)
  {
    var i := ReservedIndex(grants, mine.tool, id);
    var k :| 0 <= k < |grants| && grants[k] == g;
    if mine.once && i < |grants| {
      assert grants[i] in grants;
      if success == Some(true) {
        assert (grants[..i] + grants[i + 1..])[if k < i then k else k - 1] == g;
      } else if success == Some(false) {
        assert grants[i := grants[i].(reservation := None)][k] == g;
      }
    }
  }
}
