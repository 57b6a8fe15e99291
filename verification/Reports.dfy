/** What anybody reads of a finished run is what its process did: over every run of one sidecar, and of any number
    that relay to each other. */
module Reports {
  import opened Types
  import opened History
  import opened Advance
  import opened Encoding
  import opened Storage
  import opened Retention
  import opened Update
  import opened Execution
  import opened Settlement
  import opened Edits
  import opened Saves
  import opened Publication
  import opened Chains
  import opened Network
  import opened Agreement
  import opened Completion
  import opened Fleet
  import A = Admission
  import Outputs

  // ---- One committed end

  /** The saved row of a run tells how it ended, with the streams as they were captured or, once evicted, empty. */
  lemma CommittedRowTells(w: Widths, s: Store, g: Grant, run: Job, o: Outcome, e: Store, t: Store)
    requires FinishEdit(s, g, run, o) == Ok(e) && Commit(w, e, s) == Ok(t)
    ensures FindJob(t.jobs, run.id).Some?
    ensures var row := FindJob(t.jobs, run.id).value;
      && row.id == run.id && row.from == run.from && row.body == run.body && row.argv == run.argv
      && TellsEnd(row.status, o)
      && (|| row.stdout == row.stderr == []
          || (row.stdout == (if o.Exited? then o.stdout else run.stdout)
              && row.stderr == (if o.Exited? then o.stderr else run.stderr)))
  {
    FinishTells(s, g, run, o, e);
    A.CommitControl(w, e, s, t);
    var i := JobIndex(s.jobs, run.id);
    forall m | 0 <= m < |e.jobs| ensures t.jobs[m].id == e.jobs[m].id {
      assert RowTrimmed(e.jobs[m], t.jobs[m]);
    }
    SameIds(e.jobs, t.jobs, run.id);
    assert RowTrimmed(e.jobs[i], t.jobs[i]);
  }

  // ---- What a machine's finished facts go back to

  /** The fact has the exit code of a process that ended here before, and the digests of what it printed. */
  ghost predicate Happened(past: seq<A.Action>, f: Fact) {
    exists o: Outcome ::
      && A.ProcessEnds(f.invocation.id, o) in past && o.Exited? && o.captureError.None?
      && f.status == Done(o.exit) && f.stdout == OutputOf(o.stdout) && f.stderr == OutputOf(o.stderr)
  }

  ghost predicate FactsHappened(s: Store, past: seq<A.Action>) {
    forall k: Invocation :: k.body == s.name && RunnerFact(s.entries, k).Some? ==>
      var f := RunnerFact(s.entries, k).value.fact;
      f.status.Done? ==> f.invocation.id == k.id && Happened(past, f)
  }

  /** A task whose process has ended saw that end. */
  ghost predicate TasksHappened(a: A.Sidecar, past: seq<A.Action>) {
    forall id :: id in a.tasks && a.tasks[id].phase.Ended? ==> A.ProcessEnds(id, a.tasks[id].phase.outcome) in past
  }

  ghost predicate AllHappened(a: A.Sidecar, past: seq<A.Action>) {
    && FactsHappened(a.machine.disk, past) && TasksHappened(a, past)
    && (!a.machine.poisoned ==> FactsHappened(a.machine.mem, past))
  }

  lemma LaterHappened(s: Store, past: seq<A.Action>, x: A.Action)
    requires FactsHappened(s, past)
    ensures FactsHappened(s, past + [x])
  {
    forall k: Invocation | k.body == s.name && RunnerFact(s.entries, k).Some?
                           && RunnerFact(s.entries, k).value.fact.status.Done?
      ensures Happened(past + [x], RunnerFact(s.entries, k).value.fact)
    {
      var f := RunnerFact(s.entries, k).value.fact;
      assert Happened(past, f);
      var o :| A.ProcessEnds(f.invocation.id, o) in past && o.Exited? && o.captureError.None?
        && f.status == Done(o.exit) && f.stdout == OutputOf(o.stdout) && f.stderr == OutputOf(o.stderr);
      assert A.ProcessEnds(f.invocation.id, o) in past + [x];
    }
  }

  // ---- Only the end of a run makes a row here say that it is done

  /** Of the rows here, but for the one with this ID, those that are done were done before. */
  ghost predicate EndsStay(s: Store, e: Store, but: Option<string>) {
    forall i :: 0 <= i < |e.jobs| && e.jobs[i].body == s.name && e.jobs[i].status.Done? && Some(e.jobs[i].id) != but ==>
      i < |s.jobs| && s.jobs[i].id == e.jobs[i].id && s.jobs[i].body == s.name && s.jobs[i].status.Done?
  }

  lemma EditEndsStay(s: Store, edit: Edit, e: Store)
    requires Fair(s, edit) && Apply(s, edit) == Ok(e) && !edit.Submit? && !edit.Finish? && !edit.Recover?
    ensures EndsStay(s, e, None)
  {
    match edit
    case Learn(_, asked, page) => A.LearnFrame(s, page.entries, !page.reset && asked.unknown);
    case Reply(peer, p) => ReplyEndsStay(s, peer, p, e);
    case Discard(keep) => RemovalsReceipted(s, OldestBut(s, keep));
    case _ => RowEditEndsStay(s, edit, e);
  }

  lemma RowEditEndsStay(s: Store, edit: Edit, e: Store)
    requires edit.Append? || edit.DeliveryFailed? || edit.Refuse? || IsControl(edit)
    requires Apply(s, edit) == Ok(e)
    ensures EndsStay(s, e, None)
  {
    match edit
    case DeliveryFailed(id, x) => DeliveryEndsStay(s, id, x);
    case Refuse(id, x) => RefuseEndsStay(s, id, x, e);
    case Append(_, _, _, _) =>
    case _ => ControlShape(s, edit, e);
  }

  lemma DeliveryEndsStay(s: Store, id: string, x: Error)
    ensures EndsStay(s, FailDelivery(s, id, x), None)
  {
  }

  lemma RefuseEndsStay(s: Store, id: string, x: Error, e: Store)
    requires RefuseLocal(s, id, x) == Ok(e)
    ensures EndsStay(s, e, None)
  {
  }

  lemma ReplyEndsStay(s: Store, peer: string, p: Published, e: Store)
    requires peer != s.name && AcceptRunnerReply(s, peer, p) == Ok(e)
    ensures EndsStay(s, e, None)
  {
    if e != s {
      ReplyShape(s, peer, p);
      IngestFrame(s, p);
      A.ReplyFromPeer(s, peer, p);
      ReplyRow(s, peer, p, e);
    }
  }

  lemma SubmitEndsStay(s: Store, c: Call, now: Now, permit: bool, requestId: string, a: Accepted)
    requires Gate(s, c) == Ok(None) && c.argv != [] && SubmitEdit(s, c, now, permit, requestId) == Ok(a)
    ensures EndsStay(s, a.store, None)
  {
    var t := SubmitShape(s, c, now, permit, requestId, a);
    BindLeavesOwn(s, c, t);
    var status: Status :| (status.Running? || status.Denied?)
      && a.store.jobs == PutJob(s.jobs, Job(c.id, c.from, s.name, c.argv, status, [], []));
  }

  lemma RecoverEndsStay(s: Store)
    ensures EndsStay(s, s.(jobs := RecoverRows(s.jobs, s.name)), None)
  {
    var e := s.(jobs := RecoverRows(s.jobs, s.name));
    forall i | 0 <= i < |e.jobs| && e.jobs[i].status.Done? ensures s.jobs[i] == e.jobs[i] {
      RecoveredRows(s.jobs, s.name, i);
    }
  }

  // ---- One update

  lemma TerminalStaysOne(s: Store, previous: seq<Job>, j: Job, t: Store, k: Invocation)
    requires SoundCerts(s.entries, s.certs) && FreshJob(s, j) && PublishJob(s, previous, j) == Ok(t)
    requires RunnerFact(s.entries, k).Some? && IsTerminal(RunnerFact(s.entries, k).value.fact.status)
    ensures RunnerFact(t.entries, k) == RunnerFact(s.entries, k)
  {
    if j.from == s.name || j.body == s.name {
      var u := PublishStages(s, previous, j, t);
      var c := CertifyShape(s, previous, j, u);
      if t != u {
        PublishWrites(s, previous, j, u, t);
      }
    }
  }

  lemma {:induction false} TerminalStays(s: Store, previous: seq<Job>, changed: seq<Job>, t: Store, k: Invocation)
    requires PublishJobs(s, previous, changed) == Ok(t) && Sound(s) && FreshJobs(s, changed)
    requires RunnerFact(s.entries, k).Some? && IsTerminal(RunnerFact(s.entries, k).value.fact.status)
    ensures RunnerFact(t.entries, k) == RunnerFact(s.entries, k)
    decreases |changed|
  {
    if changed != [] {
      var u := PublishStep(s, previous, changed);
      TerminalStaysOne(s, previous, changed[0], u, k);
      TerminalStays(u, previous, changed[1..], t, k);
    }
  }

  lemma RefreshedFactStays(s: Store, e: Store, r: Store, k: Invocation)
    requires GoodEdit(s, e) && RefreshOwned(e, s) == Ok(r)
    requires RunnerFact(e.entries, k).Some? && IsTerminal(RunnerFact(e.entries, k).value.fact.status)
    ensures RunnerFact(r.entries, k) == RunnerFact(e.entries, k)
  {
    var changed := ChangedJobs(e.jobs, s.jobs);
    ChangedAreFresh(e, s, changed);
    TerminalStays(WithTrust(e), s.jobs, changed, r, k);
  }

  /** A finished fact stays as it is, whatever is published, dropped or evicted. */
  lemma FinishedFactStays(w: Widths, s: Store, e: Store, t: Store, k: Invocation)
    requires GoodStore(s) && GoodEdit(s, e) && OwnFactsStay(s, e) && Commit(w, e, s) == Ok(t) && k.body == s.name
    requires RunnerFact(s.entries, k).Some? && IsTerminal(RunnerFact(s.entries, k).value.fact.status)
    ensures RunnerFact(t.entries, k) == RunnerFact(s.entries, k)
  {
    var r, n := CommitStages(w, e, s, t);
    RefreshedFactStays(s, e, r, k);
    PublishKeeps(e, s, r);
    RecordsSaved(w, r, n, t);
  }

  lemma CommitKeepsCerts(w: Widths, s: Store, e: Store, t: Store)
    requires GoodStore(s) && GoodEdit(s, e) && Commit(w, e, s) == Ok(t)
    ensures CertsKept(s, t)
  {
    Outputs.CommitKeepsBinding(w, e, s, t);
  }

  /** A row that is done and not rewritten by a refused completion has its finished fact. */
  lemma DoneRowHasFact(s: Store, lost: set<string>, i: nat)
    requires PublishedBut(s, lost) && UniqueIds(s.jobs) && i < |s.jobs|
    requires s.jobs[i].body == s.name && s.jobs[i].status.Done?
    ensures s.jobs[i].id in s.certs
    ensures var f := RunnerFact(s.entries, s.certs[s.jobs[i].id]); f.Some? && f.value.fact.status.Done?
  {
    IndexOfRow(s.jobs, i);
    assert s.jobs[i].id in lost ==> Apart(s, s.jobs[i].id);
    assert Agrees(s, s.jobs[i]);
  }

  /** A finished fact of this machine has a row here that is done. */
  lemma FinishedFactHasRow(s: Store, lost: set<string>, k: Invocation)
    requires PublishedBut(s, lost) && k.body == s.name && RunnerFact(s.entries, k).Some?
    requires RunnerFact(s.entries, k).value.fact.status.Done?
    ensures k.id in s.certs && s.certs[k.id] == k
    ensures var i := JobIndex(s.jobs, k.id);
      i < |s.jobs| && s.jobs[i].id == k.id && s.jobs[i].body == s.name && s.jobs[i].status.Done?
  {
    assert BelongsHere(s, k);
    var i := JobIndex(s.jobs, k.id);
    assert k.id in lost ==> Apart(s, k.id);
    assert Agrees(s, s.jobs[i]);
  }

  lemma OldEnd(w: Widths, s: Store, lost: set<string>, e: Store, t: Store, but: Option<string>, k: Invocation)
    requires GoodStore(s) && PublishedBut(s, lost) && GoodEdit(s, e) && OwnFactsStay(s, e) && EndsStay(s, e, but)
    requires Commit(w, e, s) == Ok(t) && PublishedBut(t, lost) && e.name == s.name
    requires k.body == s.name && Some(k.id) != but
    requires RunnerFact(t.entries, k).Some? && RunnerFact(t.entries, k).value.fact.status.Done?
    ensures RunnerFact(s.entries, k) == RunnerFact(t.entries, k)
  {
    A.CommitControl(w, e, s, t);
    CommitKeepsCerts(w, s, e, t);
    FinishedFactHasRow(t, lost, k);
    var i := JobIndex(t.jobs, k.id);
    assert RowTrimmed(e.jobs[i], t.jobs[i]);
    DoneRowHasFact(s, lost, i);
    FinishedFactStays(w, s, e, t, k);
  }

  /** What every update but the end of a run is known to do to the rows and facts of this machine. */
  ghost predicate Orderly(s: Store, e: Store, but: Option<string>) {
    GoodEdit(s, e) && KeepsRuns(s, e) && Tidy(e) && EndsStay(s, e, but)
  }

  lemma CommitHappened(w: Widths, s: Store, lost: set<string>, e: Store, t: Store, but: Option<string>,
                       past: seq<A.Action>)
    requires Served(s, lost) && Orderly(s, e, but) && Commit(w, e, s) == Ok(t) && FactsHappened(s, past)
    requires forall k: Invocation :: k.body == s.name && Some(k.id) == but && RunnerFact(t.entries, k).Some? ==>
      var f := RunnerFact(t.entries, k).value.fact;
      k.id in t.certs && t.certs[k.id] == k && f.status.Done? ==> f.invocation.id == k.id && Happened(past, f)
    ensures FactsHappened(t, past)
  {
    CommitKeeps(w, e, s, t);
    CommitPublishes(w, s, lost, e, t);
    forall k: Invocation | k.body == t.name && RunnerFact(t.entries, k).Some?
                           && RunnerFact(t.entries, k).value.fact.status.Done?
      ensures RunnerFact(t.entries, k).value.fact.invocation.id == k.id
      ensures Happened(past, RunnerFact(t.entries, k).value.fact)
    {
      if Some(k.id) == but {
        FinishedFactHasRow(t, lost, k);
      } else {
        OldEnd(w, s, lost, e, t, but, k);
      }
    }
  }

  lemma SaveHappened(m: Machine, t: Store, save: Save, past: seq<A.Action>)
    requires FactsHappened(m.disk, past) && FactsHappened(t, past)
    ensures var m' := AfterSave(m, t, save);
      FactsHappened(m'.disk, past) && (!m'.poisoned ==> FactsHappened(m'.mem, past))
  {
  }

  ghost predicate MachineHappened(m: Machine, past: seq<A.Action>) {
    FactsHappened(m.disk, past) && (!m.poisoned ==> FactsHappened(m.mem, past))
  }

  lemma UpdateHappened(w: Widths, m: Machine, k: Marks, edited: Result<Store>, save: Save, past: seq<A.Action>)
    requires MachineServed(m, k) && MachineHappened(m, past)
    requires !m.poisoned && edited.Ok? ==> Orderly(m.mem, edited.value, None)
    ensures MachineHappened(UpdateWith(w, m, edited, save).0, past)
  {
    if !m.poisoned && edited.Ok? && Commit(w, edited.value, m.mem).Ok? {
      var t := Commit(w, edited.value, m.mem).value;
      CommitHappened(w, m.mem, k.memory, edited.value, t, None, past);
      SaveHappened(m, t, save, past);
    }
  }

  // ---- Each step

  lemma SubmitHappened(w: Widths, a: A.Sidecar, k: Marks, x: A.Action, b: A.Sidecar, past: seq<A.Action>)
    requires x.Submit? && InService(a, k) && Proper(a, x) && AllHappened(a, past) && b == A.AfterSubmit(w, a, x)
    ensures AllHappened(b, past)
  {
    var s, c := a.machine.mem, x.call;
    if Gate(s, c) == Ok(None) && c.argv != [] {
      var edited := SubmitEdit(s, c, x.now, x.permit, x.requestId);
      var e := if edited.Ok? then Ok(edited.value.store) else Err(edited.error);
      if !a.machine.poisoned && edited.Ok? {
        AdmissionServes(s, k.memory, c, x.now, x.permit, x.requestId, edited.value);
        SubmitEndsStay(s, c, x.now, x.permit, x.requestId, edited.value);
      }
      UpdateHappened(w, a.machine, k, e, x.save, past);
      AdmissionPlain(w, a, x, edited, b);
      AdmittedTasks(w, a, x, edited, b, past);
    }
  }

  lemma AdmittedTasks(w: Widths, a: A.Sidecar, x: A.Action, edited: Result<Accepted>, b: A.Sidecar,
                      past: seq<A.Action>)
    requires x.Submit? && TasksHappened(a, past) && b == A.AfterAdmission(w, a, x, edited)
    ensures TasksHappened(b, past)
  {
  }

  lemma OtherHappened(w: Widths, a: A.Sidecar, k: Marks, x: A.Action, b: A.Sidecar, past: seq<A.Action>)
    requires x.Other? && InService(a, k) && Proper(a, x) && AllHappened(a, past) && A.OtherStep(w, a, x, b)
    ensures AllHappened(b, past)
  {
    var s := a.machine.mem;
    var e := Apply(s, x.edit);
    if !a.machine.poisoned && e.Ok? {
      EveryEditIsGood(s, x.edit, e.value);
      EditKeepsRuns(s, x.edit, e.value);
      EditTidy(s, k.memory, x.edit, e.value);
      EditEndsStay(s, x.edit, e.value);
    }
    UpdateHappened(w, a.machine, k, e, x.save, past);
  }

  lemma RestartHappened(w: Widths, a: A.Sidecar, k: Marks, x: A.Action, b: A.Sidecar, past: seq<A.Action>)
    requires x.Restart? && InService(a, k) && AllHappened(a, past) && b == A.AfterRestart(w, a, x)
    ensures AllHappened(b, past)
  {
    var disk := a.machine.disk;
    var m := Machine(disk, disk, false);
    var rows := disk.(jobs := RecoverRows(disk.jobs, disk.name));
    RecoverIsGood(disk);
    RecoverKeepsRuns(disk);
    SameHistoryTidy(disk, rows);
    RecoverEndsStay(disk);
    UpdateHappened(w, m, Marks(k.file, k.file), Ok(rows), x.save, past);
  }

  lemma FinishEndsStay(s: Store, g: Grant, run: Job, o: Outcome, e: Store)
    requires FinishEdit(s, g, run, o) == Ok(e)
    ensures EndsStay(s, e, Some(run.id))
  {
    FinishTells(s, g, run, o, e);
  }

  /** The fact that a committed completion leaves goes back to the end of its process. */
  lemma EndHappened(w: Widths, s: Store, lost: set<string>, task: A.Task, e: Store, t: Store, past: seq<A.Action>)
    requires Served(s, lost) && FactsHappened(s, past)
    requires FindJob(s.jobs, task.run.id) == Some(task.run) && task.run.status.Running? && task.run.body == s.name
    requires task.phase.Ended? && A.ProcessEnds(task.run.id, task.phase.outcome) in past
    requires FinishEdit(s, task.grant, task.run, task.phase.outcome) == Ok(e) && Commit(w, e, s) == Ok(t)
    ensures FactsHappened(t, past)
  {
    var run, o := task.run, task.phase.outcome;
    var i := JobIndex(s.jobs, run.id);
    RunIsInFlight(s, lost, i);
    FinishServes(s, lost, task, e);
    FinishEndsStay(s, task.grant, run, o, e);
    CommittedEndTells(w, s, i, o, task.grant, e, t);
    CommitKeepsCerts(w, s, e, t);
    CommitHappened(w, s, lost, e, t, Some(run.id), past);
  }

  lemma CompleteHappened(w: Widths, a: A.Sidecar, k: Marks, x: A.Action, b: A.Sidecar, past: seq<A.Action>)
    requires x.Complete? && InService(a, k) && x.id in a.tasks && a.tasks[x.id].phase.Ended?
    requires AllHappened(a, past) && b == A.AfterComplete(w, a, x)
    ensures AllHappened(b, past)
  {
    var m, task := a.machine, a.tasks[x.id];
    var edited := FinishEdit(m.mem, task.grant, task.run, task.phase.outcome);
    if !m.poisoned && edited.Ok? && Commit(w, edited.value, m.mem).Ok? {
      var t := Commit(w, edited.value, m.mem).value;
      assert task.run.id == x.id;
      EndHappened(w, m.mem, k.memory, task, edited.value, t, past);
      SaveHappened(m, t, x.save, past);
    }
    CompletedMachine(w, a, x, b, past);
  }

  lemma CompletedMachine(w: Widths, a: A.Sidecar, x: A.Action, b: A.Sidecar, past: seq<A.Action>)
    requires x.Complete? && x.id in a.tasks && a.tasks[x.id].phase.Ended? && b == A.AfterComplete(w, a, x)
    requires TasksHappened(a, past)
    requires var task := a.tasks[x.id];
      var edited := FinishEdit(a.machine.mem, task.grant, task.run, task.phase.outcome);
      MachineHappened(UpdateWith(w, a.machine, edited, x.save).0, past)
    ensures AllHappened(b, past)
  {
    var task := a.tasks[x.id];
    var edited := FinishEdit(a.machine.mem, task.grant, task.run, task.phase.outcome);
    var mem := UpdateWith(w, a.machine, edited, x.save).0.mem;
    assert FactsHappened(A.MarkRow(mem, x.id, x.reason), past) <==> FactsHappened(mem, past);
  }

  lemma StepHappened(w: Widths, a: A.Sidecar, k: Marks, x: A.Action, b: A.Sidecar, past: seq<A.Action>)
    requires InService(a, k) && Proper(a, x) && AllHappened(a, past) && A.Step(w, a, x, b)
    ensures AllHappened(b, past + [x])
  {
    match x
    case Submit(_, _, _, _, _) => SubmitHappened(w, a, k, x, b, past); StillHappened(b, past, x);
    case ProcessEnds(_, _) => StillHappened(a, past, x);
    case Complete(_, _, _) => CompleteHappened(w, a, k, x, b, past); StillHappened(b, past, x);
    case Other(_, _) => OtherHappened(w, a, k, x, b, past); StillHappened(b, past, x);
    case Restart(_) => RestartHappened(w, a, k, x, b, past); StillHappened(b, past, x);
  }

  lemma StillHappened(a: A.Sidecar, past: seq<A.Action>, x: A.Action)
    requires AllHappened(a, past)
    ensures AllHappened(a, past + [x])
  {
    LaterHappened(a.machine.disk, past, x);
    if !a.machine.poisoned {
      LaterHappened(a.machine.mem, past, x);
    }
  }

  // ---- Every run

  lemma RunsHappened(w: Widths, states: seq<A.Sidecar>, actions: seq<A.Action>, marks: seq<Marks>, i: nat)
    requires A.Run(w, states, actions) && Watched(w, states, actions, marks) && ProperRun(states, actions)
    requires Ready(states[0].machine.mem) && FactsHappened(states[0].machine.mem, []) && i < |states|
    ensures AllHappened(states[i], actions[..i])
  {
    StartHappened(states[0]);
    for n := 0 to i
      invariant AllHappened(states[n], actions[..n])
    {
      RunStepHappened(w, states, actions, marks, n);
    }
  }

  lemma OneLonger<T>(list: seq<T>, n: nat)
    requires n < |list|
    ensures list[..n + 1] == list[..n] + [list[n]]
  {
  }

  lemma StartHappened(a: A.Sidecar)
    requires A.Init(a) && FactsHappened(a.machine.mem, [])
    ensures AllHappened(a, [])
  {
  }

  lemma RunStepHappened(w: Widths, states: seq<A.Sidecar>, actions: seq<A.Action>, marks: seq<Marks>, n: nat)
    requires A.Run(w, states, actions) && Watched(w, states, actions, marks) && ProperRun(states, actions)
    requires Ready(states[0].machine.mem) && n < |actions| && AllHappened(states[n], actions[..n])
    ensures AllHappened(states[n + 1], actions[..n + 1])
  {
    RunsInService(w, states, actions, marks, n);
    StepOfRun(w, states, actions, n);
    OneLonger(actions, n);
    StepHappened(w, states[n], marks[n], actions[n], states[n + 1], actions[..n]);
  }

  lemma StepOfRun(w: Widths, states: seq<A.Sidecar>, actions: seq<A.Action>, n: nat)
    requires A.Run(w, states, actions) && ProperRun(states, actions) && n < |actions|
    ensures A.Step(w, states[n], actions[n], states[n + 1]) && Proper(states[n], actions[n])
  {
    var x := actions[n];
  }

  /** In every run that starts with nothing finished, a fact of this machine that says done, in the file or while
      updates go on in memory, has the exit code and the digests of what the run's process ended with; so has its
      row, until its output is evicted, that exit code and those very streams. */
  lemma FinishedMeansEnded(w: Widths, states: seq<A.Sidecar>, actions: seq<A.Action>, marks: seq<Marks>, i: nat,
                           s: Store)
    requires A.Run(w, states, actions) && Watched(w, states, actions, marks) && ProperRun(states, actions)
    requires Ready(states[0].machine.mem) && FactsHappened(states[0].machine.mem, []) && i < |states|
    requires s == states[i].machine.disk || (s == states[i].machine.mem && !states[i].machine.poisoned)
    ensures FactsHappened(s, actions[..i])
    ensures forall j :: 0 <= j < |s.jobs| && s.jobs[j].body == s.name && s.jobs[j].status.Done? ==>
      RowHappened(s, actions[..i], s.jobs[j])
  {
    RunsHappened(w, states, actions, marks, i);
    RunsInService(w, states, actions, marks, i);
    var lost := if s == states[i].machine.disk then marks[i].file else marks[i].memory;
    forall j | 0 <= j < |s.jobs| && s.jobs[j].body == s.name && s.jobs[j].status.Done?
      ensures RowHappened(s, actions[..i], s.jobs[j])
    {
      RowGoesBack(s, lost, actions[..i], j);
    }
  }

  ghost predicate RowHappened(s: Store, past: seq<A.Action>, row: Job) {
    exists o: Outcome ::
      && A.ProcessEnds(row.id, o) in past && o.Exited? && o.captureError.None? && row.status == Done(o.exit)
      && (row.id !in s.outputPruned ==> row.stdout == o.stdout && row.stderr == o.stderr)
  }

  lemma RowGoesBack(s: Store, lost: set<string>, past: seq<A.Action>, j: nat)
    requires Served(s, lost) && FactsHappened(s, past)
    requires j < |s.jobs| && s.jobs[j].body == s.name && s.jobs[j].status.Done?
    ensures RowHappened(s, past, s.jobs[j])
  {
    var row := s.jobs[j];
    DoneRowHasFact(s, lost, j);
    IndexOfRow(s.jobs, j);
    assert row.id in lost ==> Apart(s, row.id);
    assert Agrees(s, row) && RowCertified(s, row);
    var f := RunnerFact(s.entries, s.certs[row.id]).value.fact;
    var o :| A.ProcessEnds(f.invocation.id, o) in past && o.Exited? && o.captureError.None?
      && f.status == Done(o.exit) && f.stdout == OutputOf(o.stdout) && f.stderr == OutputOf(o.stderr);
    assert A.ProcessEnds(row.id, o) in past;
  }

  // ---- Any number of machines

  /** What happened at one machine. */
  function PastOf(moves: seq<Move>, name: string): seq<A.Action> {
    if moves == [] then [] else
    var rest, last := PastOf(moves[..|moves| - 1], name), moves[|moves| - 1];
    if last.Local? && last.name == name then rest + [last.action] else rest
  }

  lemma PastStep(moves: seq<Move>, move: Move, name: string)
    ensures PastOf(moves + [move], name)
         == if move.Local? && move.name == name then PastOf(moves, name) + [move.action] else PastOf(moves, name)
  {
    assert (moves + [move])[..|moves|] == moves;
  }

  ghost predicate AllMembersHappened(n: World, moves: seq<Move>) {
    forall name :: name in n.sidecars ==> AllHappened(n.sidecars[name], PastOf(moves, name))
  }

  lemma ActorHappened(w: Widths, n: World, name: string, x: A.Action, b: A.Sidecar, past: seq<A.Action>)
    requires WorldOk(n) && name in n.sidecars && Hears(n.wire, x) && Sensible(n.sidecars[name], x)
    requires A.Step(w, n.sidecars[name], x, b) && AllHappened(n.sidecars[name], past)
    ensures AllHappened(b, past + [x])
  {
    HeardIsProper(n, name, x);
    assert MemberOk(n.written, name, n.sidecars[name], n.marks[name]);
    StepHappened(w, n.sidecars[name], n.marks[name], x, b, past);
  }

  lemma MemberHappened(w: Widths, n: World, moves: seq<Move>, move: Move, n': World, name: string)
    requires WorldOk(n) && Moves(w, n, move, n') && name in n'.sidecars && AllMembersHappened(n, moves)
    ensures AllHappened(n'.sidecars[name], PastOf(moves + [move], name))
  {
    PastStep(moves, move, name);
    MovedOrNot(w, n, move, n', name);
    if move.Local? && move.name == name {
      ActorHappened(w, n, name, move.action, n'.sidecars[name], PastOf(moves, name));
    }
  }

  lemma MovedOrNot(w: Widths, n: World, move: Move, n': World, name: string)
    requires Moves(w, n, move, n') && name in n'.sidecars
    ensures name in n.sidecars
    ensures if move.Local? && move.name == name then
              Hears(n.wire, move.action) && Sensible(n.sidecars[name], move.action)
              && A.Step(w, n.sidecars[name], move.action, n'.sidecars[name])
            else n'.sidecars[name] == n.sidecars[name]
  {
  }

  lemma WorldHappened(w: Widths, n: World, moves: seq<Move>, move: Move, n': World)
    requires WorldOk(n) && Moves(w, n, move, n') && AllMembersHappened(n, moves)
    ensures AllMembersHappened(n', moves + [move])
  {
    forall name | name in n'.sidecars ensures AllHappened(n'.sidecars[name], PastOf(moves + [move], name)) {
      MemberHappened(w, n, moves, move, n', name);
    }
  }

  lemma WorldStartHappened(n: World)
    requires WorldInit(n)
    ensures AllMembersHappened(n, [])
  {
    forall name | name in n.sidecars ensures AllHappened(n.sidecars[name], PastOf([], name)) {
      StartHappened(n.sidecars[name]);
    }
  }

  lemma WorldsHappened(w: Widths, worlds: seq<World>, moves: seq<Move>, i: nat)
    requires WorldRun(w, worlds, moves) && i < |worlds|
    ensures AllMembersHappened(worlds[i], moves[..i])
  {
    WorldStartHappened(worlds[0]);
    for n := 0 to i
      invariant AllMembersHappened(worlds[n], moves[..n])
    {
      WorldsStayOk(w, worlds, moves, n);
      MoveOfRun(w, worlds, moves, n);
      OneLonger(moves, n);
      WorldHappened(w, worlds[n], moves[..n], moves[n], worlds[n + 1]);
    }
  }

  lemma MoveOfRun(w: Widths, worlds: seq<World>, moves: seq<Move>, n: nat)
    requires WorldRun(w, worlds, moves) && n < |moves|
    ensures Moves(w, worlds[n], moves[n], worlds[n + 1])
  {
    var move := moves[n];
  }

  lemma {:induction false} PastIsMoves(moves: seq<Move>, name: string, x: A.Action) returns (m: nat)
    requires x in PastOf(moves, name)
    ensures m < |moves| && moves[m] == Local(name, x)
  {
    var last := moves[|moves| - 1];
    if last == Local(name, x) {
      m := |moves| - 1;
    } else {
      m := PastIsMoves(moves[..|moves| - 1], name, x);
    }
  }

  /** Wherever in the network a fact says that a run is done, at the machine that ran it its process ended before
      with that exit code and printed exactly the streams with those digests. */
  lemma DoneAnywhereEnded(w: Widths, worlds: seq<World>, moves: seq<Move>, i: nat, k: Invocation, f: SignedFact)
    requires WorldRun(w, worlds, moves) && i < |worlds| && k.body in worlds[i].sidecars
    requires Found(NetOf(worlds[i]), Slot(k, Runner), f) && f.fact.status.Done?
    requires worlds[i].sidecars[k.body].machine.disk.key == k.runnerKey
    ensures exists m: nat, out: seq<byte>, err: seq<byte> ::
      && m < i && moves[m] == Local(k.body, A.ProcessEnds(k.id, Exited(f.fact.status.exit, out, err, None)))
      && f.fact.stdout == OutputOf(out) && f.fact.stderr == OutputOf(err)
  {
    WorldsStayOk(w, worlds, moves, i);
    WorldsHappened(w, worlds, moves, i);
    var o := FoundEnd(worlds[i], PastOf(moves[..i], k.body), k, f);
    var m := PastIsMoves(moves[..i], k.body, A.ProcessEnds(k.id, o));
    assert o == Exited(f.fact.status.exit, o.stdout, o.stderr, None);
  }

  lemma FoundEnd(n: World, past: seq<A.Action>, k: Invocation, f: SignedFact) returns (o: Outcome)
    requires WorldOk(n) && k.body in n.sidecars && AllHappened(n.sidecars[k.body], past)
    requires Found(NetOf(n), Slot(k, Runner), f) && f.fact.status.Done?
    requires n.sidecars[k.body].machine.disk.key == k.runnerKey
    ensures A.ProcessEnds(k.id, o) in past && o.Exited? && o.captureError.None?
    ensures f.fact.status == Done(o.exit) && f.fact.stdout == OutputOf(o.stdout) && f.fact.stderr == OutputOf(o.stderr)
  {
    var a := n.sidecars[k.body];
    assert MemberOk(n.written, k.body, a, n.marks[k.body]);
    FoundHereIsWritten(n, Slot(k, Runner), f);
    EndIsHeld(n.written, a.machine.disk, k, f);
    o :| A.ProcessEnds(f.fact.invocation.id, o) in past && o.Exited? && o.captureError.None?
      && f.fact.status == Done(o.exit) && f.fact.stdout == OutputOf(o.stdout) && f.fact.stderr == OutputOf(o.stderr);
  }
}
