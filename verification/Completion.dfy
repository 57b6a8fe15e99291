/** Ends of runs that are turned down: exactly when that happens, and that over every run of the sidecar the rows
    left unpublished are exactly theirs. */
module Completion {
  import opened Types
  import opened History
  import opened Encoding
  import opened Sums
  import opened Storage
  import opened Update
  import opened Execution
  import opened Settlement
  import opened Edits
  import opened Saves
  import opened Publication
  import opened Agreement
  import A = Admission

  // ---- What holds between steps

  /** The rows rewritten in memory after a refused completion, as far as memory and the file show them. */
  datatype Marks = Marks(memory: set<string>, file: set<string>)

  ghost predicate Served(s: Store, lost: set<string>) {
    GoodStore(s) && PublishedBut(s, lost) && Tidy(s)
  }

  ghost predicate MachineServed(m: Machine, k: Marks) {
    Served(m.disk, k.file) && m.mem.name == m.disk.name && (!m.poisoned ==> Served(m.mem, k.memory))
  }

  /** The row of a task is as it was admitted, and its outcome is one that a run can have. */
  ghost predicate TaskRows(s: Store, tasks: map<string, A.Task>) {
    forall id :: id in tasks ==>
      var run := tasks[id].run;
      && run.id == id && FindJob(s.jobs, id) == Some(run)
      && run.status.Running? && run.body == s.name && JobBytes(run) == 0
  }

  ghost predicate PlainEnds(tasks: map<string, A.Task>) {
    forall id :: id in tasks && tasks[id].phase.Ended? ==> Plain(tasks[id].phase.outcome)
  }

  ghost predicate InService(a: A.Sidecar, k: Marks) {
    MachineServed(a.machine, k) && PlainEnds(a.tasks) && (!a.machine.poisoned ==> TaskRows(a.machine.mem, a.tasks))
  }

  /** A save that may have happened puts the marks of memory into the file. */
  lemma UpdateServed(w: Widths, m: Machine, k: Marks, edited: Result<Store>, save: Save)
    requires MachineServed(m, k)
    requires !m.poisoned && edited.Ok? ==>
      GoodEdit(m.mem, edited.value) && KeepsRuns(m.mem, edited.value) && Tidy(edited.value)
    ensures var m' := UpdateWith(w, m, edited, save).0;
      MachineServed(m', k.(file := if m'.disk == m.disk then k.file else k.memory)) && m'.mem.name == m.mem.name
  {
    if !m.poisoned && edited.Ok? && Commit(w, edited.value, m.mem).Ok? {
      var t := Commit(w, edited.value, m.mem).value;
      CommitKeeps(w, edited.value, m.mem, t);
      CommitPublishes(w, m.mem, k.memory, edited.value, t);
    }
  }

  lemma RowSurvives(s: Store, e: Store, t: Store, run: Job)
    requires FindJob(s.jobs, run.id) == Some(run) && run.status.Running? && run.body == s.name && JobBytes(run) == 0
    requires RunningStay(s, e) && SameControl(e, t)
    ensures FindJob(t.jobs, run.id) == Some(run)
  {
    var i := JobIndex(s.jobs, run.id);
    A.IndexStays(s.jobs, e.jobs, run.id);
    assert forall m :: 0 <= m < |e.jobs| ==> RowTrimmed(e.jobs[m], t.jobs[m]);
    A.IndexStays(e.jobs, t.jobs, run.id);
    assert RowTrimmed(e.jobs[i], t.jobs[i]);
  }

  lemma TasksSurvive(s: Store, e: Store, t: Store, tasks: map<string, A.Task>)
    requires TaskRows(s, tasks) && RunningStay(s, e) && SameControl(e, t) && e.name == s.name
    ensures TaskRows(t, tasks)
  {
    forall id | id in tasks ensures FindJob(t.jobs, id) == Some(tasks[id].run) {
      RowSurvives(s, e, t, tasks[id].run);
    }
  }

  lemma UpdateKeepsTasks(w: Widths, m: Machine, edited: Result<Store>, save: Save, tasks: map<string, A.Task>)
    requires TaskRows(m.mem, tasks)
    requires edited.Ok? ==> RunningStay(m.mem, edited.value) && edited.value.name == m.mem.name
    ensures TaskRows(UpdateWith(w, m, edited, save).0.mem, tasks)
  {
    if UpdateWith(w, m, edited, save).1.Ok? {
      var t := A.UpdateSaved(w, m, edited, save);
      A.CommitControl(w, edited.value, m.mem, t);
      TasksSurvive(m.mem, edited.value, t, tasks);
    }
  }

  // ---- Each step

  /** What the sidecar's surroundings see to: calls carry what their certificates say, runs end as runs can, and
      nobody else signs with this machine's key. */
  ghost predicate Proper(a: A.Sidecar, x: A.Action) {
    match x
    case Submit(call, now, permit, id, _) =>
      Gate(a.machine.mem, call) == Ok(None) ==> Fair(a.machine.mem, Edit.Submit(call, now, permit, id))
    case ProcessEnds(_, outcome) => Plain(outcome)
    case Other(edit, _) => !a.machine.poisoned ==> Honest(a.machine.mem, edit)
    case _ => true
  }

  /** The end of a run is turned down although updates go on. */
  ghost predicate Refused(w: Widths, a: A.Sidecar, x: A.Action) {
    && x.Complete? && x.id in a.tasks && a.tasks[x.id].phase.Ended?
    && var task := a.tasks[x.id];
       var edited := FinishEdit(a.machine.mem, task.grant, task.run, task.phase.outcome);
       var after := UpdateWith(w, a.machine, edited, x.save);
       after.1.Err? && !after.0.poisoned
  }

  /** A refused completion marks its row in memory; a save takes the marks to the file, and a restart takes
      them from there. */
  ghost function NextMarks(w: Widths, a: A.Sidecar, x: A.Action, b: A.Sidecar, k: Marks): Marks {
    var memory := match x
                  case Restart(_) => k.file
                  case Complete(id, _, _) => if Refused(w, a, x) then k.memory + {id} else k.memory
                  case _ => k.memory;
    Marks(memory, if b.machine.disk == a.machine.disk then k.file else memory)
  }

  lemma SubmitServed(w: Widths, a: A.Sidecar, k: Marks, x: A.Action, b: A.Sidecar)
    requires x.Submit? && InService(a, k) && Proper(a, x) && b == A.AfterSubmit(w, a, x)
    ensures InService(b, NextMarks(w, a, x, b, k))
  {
    var s, c := a.machine.mem, x.call;
    if Gate(s, c) == Ok(None) && c.argv != [] {
      var edited := SubmitEdit(s, c, x.now, x.permit, x.requestId);
      AdmissionServed(w, a, k, x, edited, b);
    }
  }

  lemma AdmissionServed(w: Widths, a: A.Sidecar, k: Marks, x: A.Action, edited: Result<Accepted>, b: A.Sidecar)
    requires x.Submit? && InService(a, k) && Proper(a, x)
    requires Gate(a.machine.mem, x.call) == Ok(None) && x.call.argv != []
    requires edited == SubmitEdit(a.machine.mem, x.call, x.now, x.permit, x.requestId)
    requires b == A.AfterAdmission(w, a, x, edited)
    ensures InService(b, NextMarks(w, a, x, b, k))
  {
    var e := if edited.Ok? then Ok(edited.value.store) else Err(edited.error);
    if !a.machine.poisoned && edited.Ok? {
      AdmissionServes(a.machine.mem, k.memory, x.call, x.now, x.permit, x.requestId, edited.value);
    }
    UpdateServed(w, a.machine, k, e, x.save);
    if !a.machine.poisoned {
      AdmissionTasks(w, a, x, edited, b);
    }
    AdmissionPlain(w, a, x, edited, b);
  }

  lemma AdmissionServes(s: Store, lost: set<string>, c: Call, now: Now, permit: bool, requestId: string, x: Accepted)
    requires Served(s, lost) && Gate(s, c) == Ok(None)
    requires c.argv != [] && Fair(s, Edit.Submit(c, now, permit, requestId))
    requires SubmitEdit(s, c, now, permit, requestId) == Ok(x)
    ensures GoodEdit(s, x.store) && KeepsRuns(s, x.store) && RunningStay(s, x.store) && Tidy(x.store)
    ensures x.store.name == s.name
  {
    SubmitIsGood(s, c, now, permit, requestId, x);
    SubmitKeepsRuns(s, c, now, permit, requestId, x);
    SubmitTidy(s, c, now, permit, requestId, x);
  }

  lemma AdmissionPlain(w: Widths, a: A.Sidecar, x: A.Action, edited: Result<Accepted>, b: A.Sidecar)
    requires x.Submit? && PlainEnds(a.tasks) && b == A.AfterAdmission(w, a, x, edited)
    ensures PlainEnds(b.tasks)
    ensures b.machine
         == UpdateWith(w, a.machine, if edited.Ok? then Ok(edited.value.store) else Err(edited.error), x.save).0
  {
  }

  lemma AdmissionTasks(w: Widths, a: A.Sidecar, x: A.Action, edited: Result<Accepted>, b: A.Sidecar)
    requires x.Submit? && x.call.argv != [] && TaskRows(a.machine.mem, a.tasks)
    requires edited == SubmitEdit(a.machine.mem, x.call, x.now, x.permit, x.requestId)
    requires edited.Ok? ==>
      RunningStay(a.machine.mem, edited.value.store) && edited.value.store.name == a.machine.mem.name
    requires b == A.AfterAdmission(w, a, x, edited)
    ensures TaskRows(b.machine.mem, b.tasks)
  {
    var s, c, m := a.machine.mem, x.call, a.machine;
    var e := if edited.Ok? then Ok(edited.value.store) else Err(edited.error);
    UpdateKeepsTasks(w, m, e, x.save, a.tasks);
    if UpdateWith(w, m, e, x.save).1.Ok? && edited.value.run.Some? {
      var t := A.UpdateSaved(w, m, e, x.save);
      A.CommitControl(w, edited.value.store, s, t);
      StartedRow(s, c, x.now, x.permit, x.requestId, edited.value, t);
    }
  }

  /** A run that may start has its row in the saved store. */
  lemma StartedRow(s: Store, c: Call, now: Now, permit: bool, requestId: string, a: Accepted, t: Store)
    requires c.argv != [] && SubmitEdit(s, c, now, permit, requestId) == Ok(a) && a.run.Some? && SameControl(a.store, t)
    ensures FindJob(t.jobs, c.id) == Some(NewRow(s, c, Running)) && t.name == s.name
  {
    var row := NewRow(s, c, Running);
    var u := SubmitShape(s, c, now, permit, requestId, a);
    assert a.store.jobs == PutJob(s.jobs, row);
    A.PutIndex(s.jobs, row);
    RowSurvives(a.store, a.store, t, row);
  }

  lemma OtherServed(w: Widths, a: A.Sidecar, k: Marks, x: A.Action, b: A.Sidecar)
    requires x.Other? && InService(a, k) && Proper(a, x) && A.OtherStep(w, a, x, b)
    ensures InService(b, NextMarks(w, a, x, b, k))
  {
    var s := a.machine.mem;
    var e := Apply(s, x.edit);
    if !a.machine.poisoned && e.Ok? {
      EveryEditIsGood(s, x.edit, e.value);
      EditKeepsRuns(s, x.edit, e.value);
      EditTidy(s, k.memory, x.edit, e.value);
    }
    UpdateServed(w, a.machine, k, e, x.save);
    if !a.machine.poisoned {
      UpdateKeepsTasks(w, a.machine, e, x.save, a.tasks);
    }
  }

  lemma FinishServes(s: Store, lost: set<string>, task: A.Task, e: Store)
    requires Served(s, lost) && task.phase.Ended? && FindJob(s.jobs, task.run.id) == Some(task.run)
    requires task.run.status.Running? && task.run.body == s.name
    requires FinishEdit(s, task.grant, task.run, task.phase.outcome) == Ok(e)
    ensures GoodEdit(s, e) && KeepsRuns(s, e) && Tidy(e)
  {
    FinishRow(s, task.grant, task.run, task.phase.outcome, e);
    OneRowGood(s, e, JobIndex(s.jobs, task.run.id));
    FinishKeepsRuns(s, task.grant, task.run, task.phase.outcome, e);
    SameHistoryTidy(s, e);
  }

  lemma CompleteServed(w: Widths, a: A.Sidecar, k: Marks, x: A.Action, b: A.Sidecar)
    requires x.Complete? && InService(a, k) && x.id in a.tasks && a.tasks[x.id].phase.Ended?
    requires b == A.AfterComplete(w, a, x)
    ensures InService(b, NextMarks(w, a, x, b, k))
  {
    if a.machine.poisoned {
      StoppedServed(w, a, k, x, b);
    } else if Refused(w, a, x) {
      RefusedServed(w, a, k, x, b);
    } else {
      SavedServed(w, a, k, x, b);
    }
  }

  lemma SavedServed(w: Widths, a: A.Sidecar, k: Marks, x: A.Action, b: A.Sidecar)
    requires x.Complete? && InService(a, k) && x.id in a.tasks && a.tasks[x.id].phase.Ended?
    requires !a.machine.poisoned && !Refused(w, a, x) && b == A.AfterComplete(w, a, x)
    ensures InService(b, NextMarks(w, a, x, b, k))
  {
    assert a.tasks[x.id].run.id == x.id;
    SettledShape(w, a, x, b);
    NoNewMark(w, a, k, x, b);
    EndServed(w, a, k, a.tasks[x.id], x.save, b);
  }

  lemma OneNewMark(w: Widths, a: A.Sidecar, k: Marks, x: A.Action, b: A.Sidecar)
    requires Refused(w, a, x) && b.machine.disk == a.machine.disk
    ensures NextMarks(w, a, x, b, k) == Marks(k.memory + {x.id}, k.file)
  {
  }

  lemma NoNewMark(w: Widths, a: A.Sidecar, k: Marks, x: A.Action, b: A.Sidecar)
    requires x.Complete? && !Refused(w, a, x)
    ensures NextMarks(w, a, x, b, k) == k.(file := if b.machine.disk == a.machine.disk then k.file else k.memory)
  {
  }

  lemma StoppedServed(w: Widths, a: A.Sidecar, k: Marks, x: A.Action, b: A.Sidecar)
    requires x.Complete? && InService(a, k) && x.id in a.tasks && a.tasks[x.id].phase.Ended? && a.machine.poisoned
    requires b == A.AfterComplete(w, a, x)
    ensures InService(b, k) && NextMarks(w, a, x, b, k) == k
  {
    StoppedCompletes(w, a, x, b);
    NoNewMark(w, a, k, x, b);
  }

  /** After updates have stopped a completion only rewrites memory. */
  lemma StoppedCompletes(w: Widths, a: A.Sidecar, x: A.Action, b: A.Sidecar)
    requires x.Complete? && x.id in a.tasks && a.tasks[x.id].phase.Ended? && a.machine.poisoned
    requires b == A.AfterComplete(w, a, x)
    ensures !Refused(w, a, x) && b.tasks == a.tasks - {x.id}
    ensures b.machine == a.machine.(mem := A.MarkRow(a.machine.mem, x.id, x.reason))
    ensures b.machine.mem.name == a.machine.mem.name
  {
  }

  lemma EndServed(w: Widths, a: A.Sidecar, k: Marks, task: A.Task, save: Save, b: A.Sidecar)
    requires InService(a, k) && !a.machine.poisoned
    requires task.phase.Ended? && task.run.id in a.tasks && a.tasks[task.run.id] == task
    requires var edited := FinishEdit(a.machine.mem, task.grant, task.run, task.phase.outcome);
      var after := UpdateWith(w, a.machine, edited, save);
      && b.tasks == a.tasks - {task.run.id} && b.machine.disk == after.0.disk && b.machine.mem.name == after.0.mem.name
      && b.machine.poisoned == after.0.poisoned && (!b.machine.poisoned ==> b.machine == after.0 && after.1.Ok?)
    ensures InService(b, k.(file := if b.machine.disk == a.machine.disk then k.file else k.memory))
  {
    var m := a.machine;
    var e := FinishEdit(m.mem, task.grant, task.run, task.phase.outcome);
    FinishServes(m.mem, k.memory, task, e.value);
    UpdateServed(w, m, k, e, save);
    CompletedTasks(w, m, task, e, save, a.tasks);
  }

  lemma SettledShape(w: Widths, a: A.Sidecar, x: A.Action, b: A.Sidecar)
    requires x.Complete? && x.id in a.tasks && a.tasks[x.id].phase.Ended?
    requires !Refused(w, a, x) && b == A.AfterComplete(w, a, x)
    ensures var task := a.tasks[x.id];
      var edited := FinishEdit(a.machine.mem, task.grant, task.run, task.phase.outcome);
      var after := UpdateWith(w, a.machine, edited, x.save);
      && b.tasks == a.tasks - {x.id} && b.machine.disk == after.0.disk && b.machine.mem.name == after.0.mem.name
      && b.machine.poisoned == after.0.poisoned && (!b.machine.poisoned ==> b.machine == after.0 && after.1.Ok?)
  {
  }

  lemma NothingSaved(w: Widths, m: Machine, edited: Result<Store>, save: Save)
    requires UpdateWith(w, m, edited, save).1.Err? && !UpdateWith(w, m, edited, save).0.poisoned
    ensures UpdateWith(w, m, edited, save).0 == m
  {
  }

  lemma RefusedServed(w: Widths, a: A.Sidecar, k: Marks, x: A.Action, b: A.Sidecar)
    requires InService(a, k) && !a.machine.poisoned && Refused(w, a, x) && b == A.AfterComplete(w, a, x)
    ensures InService(b, Marks(k.memory + {x.id}, k.file))
    ensures NextMarks(w, a, x, b, k) == Marks(k.memory + {x.id}, k.file)
  {
    RefusedShape(w, a, x, b);
    OneNewMark(w, a, k, x, b);
    MarkServed(a.machine.mem, k.memory, x.id, x.reason);
    MarkKeepsTasks(a.machine.mem, x.id, x.reason, a.tasks);
  }

  lemma RefusedShape(w: Widths, a: A.Sidecar, x: A.Action, b: A.Sidecar)
    requires Refused(w, a, x) && b == A.AfterComplete(w, a, x)
    ensures b == a.(tasks := a.tasks - {x.id}, machine := a.machine.(mem := A.MarkRow(a.machine.mem, x.id, x.reason)))
    ensures !a.machine.poisoned
  {
    var task := a.tasks[x.id];
    NothingSaved(w, a.machine, FinishEdit(a.machine.mem, task.grant, task.run, task.phase.outcome), x.save);
  }

  lemma MarkShape(s: Store, id: string, reason: string, m: Store)
    requires JobIndex(s.jobs, id) < |s.jobs| && m == A.MarkRow(s, id, reason)
    ensures m == s.(jobs := m.jobs) && |m.jobs| == |s.jobs|
    ensures forall i :: 0 <= i < |s.jobs| ==>
      m.jobs[i] == if i == JobIndex(s.jobs, id) then s.jobs[i].(status := Uncertain(reason)) else s.jobs[i]
    ensures forall x :: JobIndex(m.jobs, x) == JobIndex(s.jobs, x)
  {
    forall x | true ensures JobIndex(m.jobs, x) == JobIndex(s.jobs, x) {
      SameIds(s.jobs, m.jobs, x);
    }
  }

  /** The rewritten row is apart, and nothing else changes. */
  lemma MarkServed(s: Store, lost: set<string>, id: string, reason: string)
    requires Served(s, lost)
    requires var i := JobIndex(s.jobs, id);
      i < |s.jobs| && s.jobs[i].status.Running? && s.jobs[i].body == s.name && JobBytes(s.jobs[i]) == 0
    ensures Served(A.MarkRow(s, id, reason), lost + {id})
  {
    var m, i := A.MarkRow(s, id, reason), JobIndex(s.jobs, id);
    MarkShape(s, id, reason, m);
    MarkKeeps(s, i, reason, m);
    MarkTidy(s, m, i);
    RunIsInFlight(s, lost, i);
    MarkPublished(s, lost, id, m);
  }

  lemma MarkTidy(s: Store, m: Store, i: nat)
    requires Tidy(s) && i < |s.jobs| && s.jobs[i].status.Running? && m == s.(jobs := m.jobs) && |m.jobs| == |s.jobs|
    requires forall j :: 0 <= j < |s.jobs| && j != i ==> m.jobs[j] == s.jobs[j]
    requires m.jobs[i].id == s.jobs[i].id && m.jobs[i].body == s.jobs[i].body
    requires forall x :: JobIndex(m.jobs, x) == JobIndex(s.jobs, x)
    requires IsTerminal(m.jobs[i].status)
    ensures Tidy(m)
  {
    assert forall k :: DoneHere(s, k) ==> DoneHere(m, k);
    assert forall x :: ReceiptDone(s, x) ==> ReceiptDone(m, x);
  }

  lemma MarkPublished(s: Store, lost: set<string>, id: string, m: Store)
    requires PublishedBut(s, lost) && m == s.(jobs := m.jobs) && |m.jobs| == |s.jobs| && UniqueIds(s.jobs)
    requires forall x :: JobIndex(m.jobs, x) == JobIndex(s.jobs, x)
    requires var i := JobIndex(s.jobs, id);
      && i < |s.jobs| && InFlight(s, s.jobs[i]) && JobBytes(s.jobs[i]) == 0 && m.jobs[i].status.Uncertain?
      && m.jobs[i] == s.jobs[i].(status := m.jobs[i].status)
      && forall j :: 0 <= j < |s.jobs| && j != i ==> m.jobs[j] == s.jobs[j]
    ensures PublishedBut(m, lost + {id})
  {
    forall j | 0 <= j < |m.jobs| && m.jobs[j].id !in lost + {id} ensures Agrees(m, m.jobs[j]) {
      assert m.jobs[j] == s.jobs[j] && Agrees(s, s.jobs[j]);
    }
    forall k: Invocation | k.body == m.name && RunnerFact(m.entries, k).Some? ensures BelongsHere(m, k) {
      assert BelongsHere(s, k);
    }
    forall x | x in lost + {id} ensures Apart(m, x) {
      assert x in lost && x != id ==> Apart(s, x) && JobIndex(s.jobs, x) != JobIndex(s.jobs, id);
    }
  }

  lemma MarkKeepsTasks(s: Store, id: string, reason: string, tasks: map<string, A.Task>)
    requires TaskRows(s, tasks) && id in tasks
    ensures TaskRows(A.MarkRow(s, id, reason), tasks - {id})
  {
    MarkShape(s, id, reason, A.MarkRow(s, id, reason));
  }

  lemma CompletedTasks(w: Widths, m: Machine, task: A.Task, e: Result<Store>, save: Save, tasks: map<string, A.Task>)
    requires task.phase.Ended? && task.run.id in tasks && tasks[task.run.id] == task && TaskRows(m.mem, tasks)
    requires e == FinishEdit(m.mem, task.grant, task.run, task.phase.outcome)
    ensures var after := UpdateWith(w, m, e, save); after.1.Ok? ==> TaskRows(after.0.mem, tasks - {task.run.id})
  {
    if UpdateWith(w, m, e, save).1.Ok? {
      var t := A.UpdateSaved(w, m, e, save);
      A.CommitControl(w, e.value, m.mem, t);
      OtherTasksSurvive(m.mem, task, e.value, t, tasks);
    }
  }

  lemma OtherTasksSurvive(s: Store, task: A.Task, e: Store, t: Store, tasks: map<string, A.Task>)
    requires task.phase.Ended? && task.run.id in tasks && tasks[task.run.id] == task && TaskRows(s, tasks)
    requires FinishEdit(s, task.grant, task.run, task.phase.outcome) == Ok(e) && SameControl(e, t)
    ensures TaskRows(t, tasks - {task.run.id})
  {
    var i := JobIndex(s.jobs, task.run.id);
    var u := e.(jobs := s.jobs);
    forall id | id in tasks && id != task.run.id ensures FindJob(t.jobs, id) == Some(tasks[id].run) {
      A.IndexStays(s.jobs, e.jobs, id);
      assert e.jobs[JobIndex(s.jobs, id)] == tasks[id].run;
      RowSurvives(e, e, t, tasks[id].run);
    }
  }

  lemma RestartServed(w: Widths, a: A.Sidecar, k: Marks, x: A.Action, b: A.Sidecar)
    requires x.Restart? && InService(a, k) && b == A.AfterRestart(w, a, x)
    ensures InService(b, NextMarks(w, a, x, b, k))
  {
    var disk := a.machine.disk;
    var m := Machine(disk, disk, false);
    var rows := disk.(jobs := RecoverRows(disk.jobs, disk.name));
    RecoverIsGood(disk);
    RecoverKeepsRuns(disk);
    SameHistoryTidy(disk, rows);
    UpdateServed(w, m, Marks(k.file, k.file), Ok(rows), x.save);
    RestartMarks(w, a, k, x, b);
    RestartShape(w, a, x, b, m, rows);
  }

  lemma RestartMarks(w: Widths, a: A.Sidecar, k: Marks, x: A.Action, b: A.Sidecar)
    requires x.Restart?
    ensures NextMarks(w, a, x, b, k) == Marks(k.file, k.file)
  {
  }

  lemma RestartShape(w: Widths, a: A.Sidecar, x: A.Action, b: A.Sidecar, m: Machine, rows: Store)
    requires x.Restart? && b == A.AfterRestart(w, a, x) && m == Machine(a.machine.disk, a.machine.disk, false)
    requires rows == m.mem.(jobs := RecoverRows(m.mem.jobs, m.mem.name))
    ensures b.tasks == map[]
    ensures var after := UpdateWith(w, m, Ok(rows), x.save);
      || b.machine == m || (after.1.Ok? && b.machine == after.0)
      || (b.machine.poisoned && b.machine.disk == after.0.disk && b.machine.mem.name == m.mem.name)
  {
  }

  lemma StepServed(w: Widths, a: A.Sidecar, k: Marks, x: A.Action, b: A.Sidecar)
    requires InService(a, k) && Proper(a, x) && A.Step(w, a, x, b)
    ensures InService(b, NextMarks(w, a, x, b, k))
  {
    match x
    case Submit(_, _, _, _, _) => SubmitServed(w, a, k, x, b);
    case ProcessEnds(_, _) =>
    case Complete(_, _, _) => CompleteServed(w, a, k, x, b);
    case Other(_, _) => OtherServed(w, a, k, x, b);
    case Restart(_) => RestartServed(w, a, k, x, b);
  }

  lemma EveryStepServed(w: Widths)
    ensures forall a, k, x, b :: InService(a, k) && Proper(a, x) && A.Step(w, a, x, b) ==>
      InService(b, NextMarks(w, a, x, b, k))
  {
    forall a, k, x, b | InService(a, k) && Proper(a, x) && A.Step(w, a, x, b)
      ensures InService(b, NextMarks(w, a, x, b, k))
    {
      StepServed(w, a, k, x, b);
    }
  }

  // ---- Every run

  /** What a machine starts from: everything published and nothing pruned that still runs. */
  ghost predicate Ready(s: Store) {
    Served(s, {})
  }

  lemma NewStoreIsReady(s: Store)
    requires s.jobs == [] && s.entries == map[] && s.certs == map[] && s.outputPruned == {} && s.historyPruned == {}
    requires s.clock <= MAX_U64 && s.trust == TrustOf(s.peers)
    ensures Ready(s)
  {
  }

  ghost predicate Watched(w: Widths, states: seq<A.Sidecar>, actions: seq<A.Action>, marks: seq<Marks>) {
    && |marks| == |states| == |actions| + 1 && marks[0] == Marks({}, {})
    && forall i {:trigger actions[i]} :: 0 <= i < |actions| ==>
         marks[i + 1] == NextMarks(w, states[i], actions[i], states[i + 1], marks[i])
  }

  ghost predicate ProperRun(states: seq<A.Sidecar>, actions: seq<A.Action>) {
    |states| == |actions| + 1 && forall i {:trigger actions[i]} :: 0 <= i < |actions| ==> Proper(states[i], actions[i])
  }

  lemma StartInService(a: A.Sidecar)
    requires A.Init(a) && Ready(a.machine.mem)
    ensures InService(a, Marks({}, {}))
  {
  }

  lemma RunsInService(w: Widths, states: seq<A.Sidecar>, actions: seq<A.Action>, marks: seq<Marks>, i: nat)
    requires A.Run(w, states, actions) && Watched(w, states, actions, marks) && ProperRun(states, actions)
    requires Ready(states[0].machine.mem) && i < |states|
    ensures InService(states[i], marks[i])
  {
    StartInService(states[0]);
    EveryStepServed(w);
    for n := 0 to i
      invariant InService(states[n], marks[n])
    {
      var x := actions[n];
    }
  }

  /** In every run, whatever is redelivered, evicted, restarted or saved with an unknown result, the rows that
      do not say what their facts say are exactly those whose completion was refused: in memory, while
      updates go on, the ones refused since the last restart or in the file then; in the file, the ones that
      memory had when it was last saved. */
  lemma UnpublishedIffRefused(w: Widths, states: seq<A.Sidecar>, actions: seq<A.Action>, marks: seq<Marks>, i: nat)
    requires A.Run(w, states, actions) && Watched(w, states, actions, marks) && ProperRun(states, actions)
    requires Ready(states[0].machine.mem) && i < |states|
    ensures var disk := states[i].machine.disk;
      forall j :: 0 <= j < |disk.jobs| ==> (Agrees(disk, disk.jobs[j]) <==> disk.jobs[j].id !in marks[i].file)
    ensures var mem := states[i].machine.mem;
      !states[i].machine.poisoned ==>
        forall j :: 0 <= j < |mem.jobs| ==> (Agrees(mem, mem.jobs[j]) <==> mem.jobs[j].id !in marks[i].memory)
  {
    RunsInService(w, states, actions, marks, i);
    ExactlyLostDisagree(states[i].machine.disk, marks[i].file);
    if !states[i].machine.poisoned {
      ExactlyLostDisagree(states[i].machine.mem, marks[i].memory);
    }
  }

  // ---- When a completion is refused

  /** Exactly when the end of the run does not fit: the change counter has too few steps left for the fact and
      the evictions, or the text to save would pass the limit. */
  lemma RefusedIff(w: Widths, a: A.Sidecar, k: Marks, x: A.Action)
    requires InService(a, k) && x.Complete? && x.id in a.tasks && a.tasks[x.id].phase.Ended? && Plausible(w)
    ensures a.machine.poisoned ==> !Refused(w, a, x)
    ensures !a.machine.poisoned ==>
      var s, task := a.machine.mem, a.tasks[x.id];
      var i := JobIndex(s.jobs, x.id);
      && i < |s.jobs| && s.jobs[i] == task.run && InFlight(s, s.jobs[i])
      && (Refused(w, a, x) <==> !EndFits(w, s, i, task.phase.outcome, task.grant))
  {
    if !a.machine.poisoned {
      var s, task := a.machine.mem, a.tasks[x.id];
      var i := JobIndex(s.jobs, x.id);
      assert task.run.id == x.id && s.jobs[i] == task.run;
      RunIsInFlight(s, k.memory, i);
      SettlementCommitsIff(w, s, i, task.phase.outcome, task.grant);
      RefusedIffNotCommitted(w, a.machine, FinishEdit(s, task.grant, task.run, task.phase.outcome), x.save);
    }
  }

  lemma RefusedIffNotCommitted(w: Widths, m: Machine, edited: Result<Store>, save: Save)
    requires !m.poisoned && edited.Ok?
    ensures var after := UpdateWith(w, m, edited, save);
      after.1.Err? && !after.0.poisoned <==> Commit(w, edited.value, m.mem).Err?
  {
  }

  /** Within the charge and with steps of the change counter left, it fits. */
  lemma WithinChargeNoneRefused(w: Widths, a: A.Sidecar, k: Marks, x: A.Action)
    requires InService(a, k) && x.Complete? && x.id in a.tasks && a.tasks[x.id].phase.Ended? && Plausible(w)
    requires !a.machine.poisoned ==> Charge(w, a.machine.mem) <= STATE_BYTES && ClockRoom(a.machine.mem)
    ensures !Refused(w, a, x)
  {
    RefusedIff(w, a, k, x);
    if !a.machine.poisoned {
      var s, task := a.machine.mem, a.tasks[x.id];
      var i := JobIndex(s.jobs, x.id);
      SettlementIsAdmissible(w, s, i, task.phase.outcome, task.grant);
      SettlementCommitsIff(w, s, i, task.phase.outcome, task.grant);
    }
  }

  // ---- From a start within the charge

  ghost predicate WithinCharge(w: Widths, m: Machine) {
    Charge(w, m.disk) <= STATE_BYTES && (!m.poisoned ==> Charge(w, m.mem) <= STATE_BYTES)
  }

  lemma UpdateWithinCharge(w: Widths, m: Machine, edited: Result<Store>, save: Save)
    requires WithinCharge(w, m)
    ensures WithinCharge(w, UpdateWith(w, m, edited, save).0)
  {
    var t := UpdateShape(w, m, edited, save);
    if UpdateWith(w, m, edited, save).0 != m {
      CommitWithinCharge(w, edited.value, m.mem, t);
      SavedWithinCharge(w, m, t, save);
    }
  }

  lemma SavedWithinCharge(w: Widths, m: Machine, t: Store, save: Save)
    requires WithinCharge(w, m) && Charge(w, t) <= STATE_BYTES
    ensures WithinCharge(w, AfterSave(m, t, save))
  {
  }

  lemma UpdateShape(w: Widths, m: Machine, edited: Result<Store>, save: Save) returns (t: Store)
    ensures var after := UpdateWith(w, m, edited, save).0;
      || after == m
      || (!m.poisoned && edited.Ok? && Commit(w, edited.value, m.mem) == Ok(t) && after == AfterSave(m, t, save))
  {
    t := m.mem;
    if !m.poisoned && edited.Ok? && Commit(w, edited.value, m.mem).Ok? {
      t := Commit(w, edited.value, m.mem).value;
    }
  }

  lemma CommitWithinCharge(w: Widths, e: Store, s: Store, t: Store)
    requires Commit(w, e, s) == Ok(t) && Charge(w, s) <= STATE_BYTES
    ensures Charge(w, t) <= STATE_BYTES
  {
    var r, n := CommitStages(w, e, s, t);
  }

  lemma StepWithinCharge(w: Widths, a: A.Sidecar, x: A.Action, b: A.Sidecar)
    requires WithinCharge(w, a.machine) && A.Step(w, a, x, b) && !Refused(w, a, x)
    ensures WithinCharge(w, b.machine)
  {
    match x
    case Submit(_, _, _, _, _) => SubmitWithinCharge(w, a, x, b);
    case ProcessEnds(_, _) =>
    case Complete(_, _, _) => CompleteWithinCharge(w, a, x, b);
    case Other(edit, save) => UpdateWithinCharge(w, a.machine, Apply(a.machine.mem, edit), save);
    case Restart(save) => RestartWithinCharge(w, a, x, b);
  }

  lemma CompleteWithinCharge(w: Widths, a: A.Sidecar, x: A.Action, b: A.Sidecar)
    requires x.Complete? && x.id in a.tasks && a.tasks[x.id].phase.Ended? && WithinCharge(w, a.machine)
    requires !Refused(w, a, x) && b == A.AfterComplete(w, a, x)
    ensures WithinCharge(w, b.machine)
  {
    var task := a.tasks[x.id];
    SettledShape(w, a, x, b);
    UpdateWithinCharge(w, a.machine, FinishEdit(a.machine.mem, task.grant, task.run, task.phase.outcome), x.save);
  }

  lemma RestartWithinCharge(w: Widths, a: A.Sidecar, x: A.Action, b: A.Sidecar)
    requires x.Restart? && WithinCharge(w, a.machine) && b == A.AfterRestart(w, a, x)
    ensures WithinCharge(w, b.machine)
  {
    var disk := a.machine.disk;
    UpdateWithinCharge(w, Machine(disk, disk, false), Ok(disk.(jobs := RecoverRows(disk.jobs, disk.name))), x.save);
  }

  lemma SubmitWithinCharge(w: Widths, a: A.Sidecar, x: A.Action, b: A.Sidecar)
    requires x.Submit? && WithinCharge(w, a.machine) && b == A.AfterSubmit(w, a, x)
    ensures WithinCharge(w, b.machine)
  {
    if Gate(a.machine.mem, x.call) == Ok(None) && x.call.argv != [] {
      AdmissionWithinCharge(w, a, x, SubmitEdit(a.machine.mem, x.call, x.now, x.permit, x.requestId), b);
    }
  }

  lemma AdmissionWithinCharge(w: Widths, a: A.Sidecar, x: A.Action, edited: Result<Accepted>, b: A.Sidecar)
    requires x.Submit? && WithinCharge(w, a.machine) && b == A.AfterAdmission(w, a, x, edited)
    ensures WithinCharge(w, b.machine)
  {
    UpdateWithinCharge(w, a.machine, if edited.Ok? then Ok(edited.value.store) else Err(edited.error), x.save);
  }

  // ---- Refusals in runs from within the charge

  /** The text that a refused completion puts in its row is far shorter than what was reserved for the run. */
  ghost predicate Terse(x: A.Action) {
    x.Complete? ==> StatusLen(Uncertain(x.reason)) <= COMPLETION_RESERVE
  }

  lemma RowMarkCharge(pruned: set<string>, j: Job, reason: string)
    requires j.status.Running? && StatusLen(Uncertain(reason)) <= COMPLETION_RESERVE
    ensures JobCharge(pruned)(j.(status := Uncertain(reason))) <= JobCharge(pruned)(j)
  {
  }

  lemma RowsCharge(w: Widths, s: Store, m: Store)
    requires m == s.(jobs := m.jobs) && |m.jobs| == |s.jobs|
    requires SumSeq(m.jobs, JobCharge(s.outputPruned)) <= SumSeq(s.jobs, JobCharge(s.outputPruned))
    ensures Charge(w, m) <= Charge(w, s)
  {
    ChargeByRows(w, s);
    ChargeByRows(w, m);
  }

  lemma MarkCharge(w: Widths, s: Store, id: string, reason: string)
    requires var i := JobIndex(s.jobs, id); i < |s.jobs| && s.jobs[i].status.Running?
    requires StatusLen(Uncertain(reason)) <= COMPLETION_RESERVE
    ensures Charge(w, A.MarkRow(s, id, reason)) <= Charge(w, s)
  {
    var i, m := JobIndex(s.jobs, id), A.MarkRow(s, id, reason);
    RowMarkCharge(s.outputPruned, s.jobs[i], reason);
    SumSeqUpdate(s.jobs, JobCharge(s.outputPruned), i, m.jobs[i]);
    RowsCharge(w, s, m);
  }

  lemma StepStaysWithinCharge(w: Widths, a: A.Sidecar, k: Marks, x: A.Action, b: A.Sidecar)
    requires InService(a, k) && WithinCharge(w, a.machine) && A.Step(w, a, x, b) && Terse(x)
    ensures WithinCharge(w, b.machine)
  {
    if Refused(w, a, x) {
      RefusedShape(w, a, x, b);
      MarkCharge(w, a.machine.mem, x.id, x.reason);
    } else {
      StepWithinCharge(w, a, x, b);
    }
  }

  lemma RunsWithinCharge(w: Widths, states: seq<A.Sidecar>, actions: seq<A.Action>, marks: seq<Marks>, i: nat)
    requires A.Run(w, states, actions) && Watched(w, states, actions, marks) && ProperRun(states, actions)
    requires Ready(states[0].machine.mem) && Charge(w, states[0].machine.mem) <= STATE_BYTES && i < |states|
    requires forall n {:trigger actions[n]} :: 0 <= n < |actions| ==> Terse(actions[n])
    ensures WithinCharge(w, states[i].machine)
  {
    for n := 0 to i
      invariant WithinCharge(w, states[n].machine)
    {
      RunsInService(w, states, actions, marks, n);
      StepStaysWithinCharge(w, states[n], marks[n], actions[n], states[n + 1]);
    }
  }

  /** In every run from a start within the charge, refused completions before it or not: a completion is refused
      exactly when the change counter has too few steps left. */
  lemma RefusedOnlyByCounter(w: Widths, states: seq<A.Sidecar>, actions: seq<A.Action>, marks: seq<Marks>, n: nat)
    requires A.Run(w, states, actions) && Watched(w, states, actions, marks) && ProperRun(states, actions)
    requires Ready(states[0].machine.mem) && Charge(w, states[0].machine.mem) <= STATE_BYTES && Plausible(w)
    requires forall m {:trigger actions[m]} :: 0 <= m < |actions| ==> Terse(actions[m])
    requires n < |actions| && actions[n].Complete? && !states[n].machine.poisoned
    requires actions[n].id in states[n].tasks && states[n].tasks[actions[n].id].phase.Ended?
    ensures var s, task := states[n].machine.mem, states[n].tasks[actions[n].id];
      var i := JobIndex(s.jobs, actions[n].id);
      && GoodStore(s) && i < |s.jobs| && InFlight(s, s.jobs[i])
      && (Refused(w, states[n], actions[n]) <==> !CounterFits(s, i, task.phase.outcome, task.grant))
  {
    var a, x := states[n], actions[n];
    RunsInService(w, states, actions, marks, n);
    RunsWithinCharge(w, states, actions, marks, n);
    RefusedIff(w, a, marks[n], x);
    var s, task := a.machine.mem, a.tasks[x.id];
    OnlyTheCounter(w, s, JobIndex(s.jobs, x.id), task.phase.outcome, task.grant);
  }

  // ---- With steps left

  ghost predicate StepsLeft(a: A.Sidecar, x: A.Action) {
    x.Complete? && !a.machine.poisoned ==> ClockRoom(a.machine.mem)
  }

  lemma StepUnmarked(w: Widths, a: A.Sidecar, x: A.Action, b: A.Sidecar)
    requires InService(a, Marks({}, {})) && WithinCharge(w, a.machine) && Plausible(w)
    requires Proper(a, x) && StepsLeft(a, x) && A.Step(w, a, x, b)
    ensures InService(b, Marks({}, {})) && WithinCharge(w, b.machine) && !Refused(w, a, x)
  {
    if x.Complete? {
      WithinChargeNoneRefused(w, a, Marks({}, {}), x);
    }
    StepServed(w, a, Marks({}, {}), x, b);
    StepWithinCharge(w, a, x, b);
    assert NextMarks(w, a, x, b, Marks({}, {})) == Marks({}, {});
  }

  /** Incremental publication agrees with full publication: in every run that starts within its charge, as long
      as the change counter has steps left when runs end, each job run here and past queueing has a runner
      fact with its status and its output's digests, in the file always and in memory while updates go on. */
  lemma EveryRunIsPublished(w: Widths, states: seq<A.Sidecar>, actions: seq<A.Action>, i: nat)
    requires A.Run(w, states, actions) && ProperRun(states, actions) && Plausible(w) && i < |states|
    requires Ready(states[0].machine.mem) && Charge(w, states[0].machine.mem) <= STATE_BYTES
    requires forall n {:trigger actions[n]} :: 0 <= n < |actions| ==> StepsLeft(states[n], actions[n])
    ensures PublishedBut(states[i].machine.disk, {})
    ensures !states[i].machine.poisoned ==> PublishedBut(states[i].machine.mem, {})
  {
    for n := 0 to i
      invariant Unmarked(w, states[n])
    {
      var x := actions[n];
      StepStaysUnmarked(w, states[n], x, states[n + 1]);
    }
  }

  ghost predicate Unmarked(w: Widths, a: A.Sidecar) {
    InService(a, Marks({}, {})) && WithinCharge(w, a.machine)
  }

  lemma StepStaysUnmarked(w: Widths, a: A.Sidecar, x: A.Action, b: A.Sidecar)
    requires A.Step(w, a, x, b) && Proper(a, x) && Plausible(w) && StepsLeft(a, x) && Unmarked(w, a)
    ensures Unmarked(w, b)
  {
    StepUnmarked(w, a, x, b);
  }
}
