/** Any number of sidecars that relay signed history to each other: what `Completion` asks of a machine's surroundings
    follows from the signatures, and what one machine shows as finished is what the runner's own row says. */
module Fleet {
  import opened Types
  import opened Encoding
  import opened Update
  import opened Execution
  import opened Settlement
  import opened Edits
  import opened Saves
  import opened Publication
  import opened Chains
  import opened Network
  import opened Agreement
  import opened Completion
  import A = Admission

  datatype World = World(
    sidecars: map<string, A.Sidecar>, marks: map<string, Marks>, wire: set<SignedFact>, written: Written)

  datatype Move = Local(name: string, action: A.Action) | Relay(name: string, key: Invocation)

  /** Calls carry what their certificates say, and runs end as runs can. */
  ghost predicate Sensible(a: A.Sidecar, x: A.Action) {
    match x
    case Submit(call, now, permit, id, _) =>
      Gate(a.machine.mem, call) == Ok(None) ==> Fair(a.machine.mem, Edit.Submit(call, now, permit, id))
    case ProcessEnds(_, outcome) => Plain(outcome)
    case _ => true
  }

  /** Pages and replies are put together from facts that were sent, or forged ones. */
  ghost predicate Hears(wire: set<SignedFact>, x: A.Action) {
    x.Other? ==> Heard(wire, Perform(x.edit, x.save))
  }

  ghost predicate Moves(w: Widths, n: World, move: Move, n': World) {
    && move.name in n.sidecars && move.name in n.marks
    && var a := n.sidecars[move.name];
       match move
       case Relay(_, key) =>
         key in a.machine.mem.entries && n' == n.(wire := n.wire + Facts(a.machine.mem.entries[key].record))
       case Local(name, x) =>
         && name in n'.sidecars && Hears(n.wire, x) && Sensible(a, x)
         && var b := n'.sidecars[name];
            && A.Step(w, a, x, b)
            && n' == World(n.sidecars[name := b], n.marks[name := NextMarks(w, a, x, b, n.marks[name])],
                           n.wire, WrittenAfter(n.written, a.machine, b.machine))
  }

  /** A durable change takes its facts to the author's chains. */
  ghost function WrittenAfter(written: Written, m: Machine, m': Machine): Written {
    if m'.disk == m.disk then written else Logged(written, m'.disk)
  }

  ghost predicate MemberOk(written: Written, name: string, a: A.Sidecar, k: Marks) {
    InService(a, k) && Histories(written, name, a.machine)
  }

  ghost predicate WorldOk(n: World) {
    && AllChains(n.written) && Sent(n.written, n.wire) && n.marks.Keys == n.sidecars.Keys
    && forall name :: name in n.sidecars ==> MemberOk(n.written, name, n.sidecars[name], n.marks[name])
  }

  // ---- One step of one machine

  /** Nobody else signs with this machine's key, so what it hears of its own runs is not new to it. */
  lemma HeardIsHonest(written: Written, wire: set<SignedFact>, name: string, m: Machine, edit: Edit, save: Save)
    requires AllChains(written) && Sent(written, wire) && Histories(written, name, m) && !m.poisoned
    requires Heard(wire, Perform(edit, save))
    ensures Received(written, edit) && Honest(m.mem, edit)
  {
    HeardIsReceived(written, wire, edit, save);
    if edit.Learn? {
      forall i | 0 <= i < |edit.page.entries| ensures NothingNew(m.mem, edit.page.entries[i].record) {
        OwnFactsAreKnown(written, m.mem, edit.page.entries[i].record);
      }
    }
  }

  lemma HeardIsProper(n: World, name: string, x: A.Action)
    requires WorldOk(n) && name in n.sidecars && Hears(n.wire, x) && Sensible(n.sidecars[name], x)
    ensures Proper(n.sidecars[name], x)
  {
    var a := n.sidecars[name];
    assert MemberOk(n.written, name, a, n.marks[name]);
    if x.Other? && !a.machine.poisoned {
      HeardIsHonest(n.written, n.wire, name, a.machine, x.edit, x.save);
    }
  }

  lemma CommittedIsLogged(w: Widths, written: Written, s: Store, e: Store, t: Store)
    requires AllChains(written) && GoodStore(s) && GoodEdit(s, e) && Ahead(written, e) && Commit(w, e, s) == Ok(t)
    ensures AllChains(Logged(written, t)) && Ahead(Logged(written, t), t) && t.name == e.name
  {
    CommitWrote(w, written, s, e, t);
    LoggedChains(written, e, t);
  }

  lemma UpdateKeepsHistories(w: Widths, written: Written, name: string, m: Machine, edited: Result<Store>, save: Save)
    requires AllChains(written) && Histories(written, name, m)
    requires !m.poisoned && edited.Ok? ==>
      GoodStore(m.mem) && GoodEdit(m.mem, edited.value) && Ahead(written, edited.value) && edited.value.name == name
    ensures var m' := UpdateWith(w, m, edited, save).0;
      var after := WrittenAfter(written, m, m');
      AllChains(after) && Histories(after, name, m') && Grown(written, after)
  {
    if !m.poisoned && edited.Ok? && Commit(w, edited.value, m.mem).Ok? {
      var t := Commit(w, edited.value, m.mem).value;
      CommittedIsLogged(w, written, m.mem, edited.value, t);
      SaveKeepsHistories(written, name, m, t, save, WrittenAfter(written, m, AfterSave(m, t, save)));
    }
  }

  lemma SameEntries(written: Written, s: Store, t: Store)
    requires t.entries == s.entries && t.name == s.name && t.key == s.key
    ensures Follows(written, s) ==> Follows(written, t)
    ensures Ahead(written, s) ==> Ahead(written, t)
  {
  }

  lemma SubmitHistories(w: Widths, written: Written, name: string, a: A.Sidecar, k: Marks, x: A.Action, b: A.Sidecar)
    requires AllChains(written) && MemberOk(written, name, a, k)
    requires x.Submit? && Proper(a, x) && b == A.AfterSubmit(w, a, x)
    ensures var after := WrittenAfter(written, a.machine, b.machine);
      AllChains(after) && Histories(after, name, b.machine) && Grown(written, after)
  {
    var s, c := a.machine.mem, x.call;
    if Gate(s, c) == Ok(None) && c.argv != [] {
      var edited := SubmitEdit(s, c, x.now, x.permit, x.requestId);
      AdmissionPlain(w, a, x, edited, b);
      if !a.machine.poisoned && edited.Ok? {
        AdmissionServes(s, k.memory, c, x.now, x.permit, x.requestId, edited.value);
        SubmitKeepsAhead(written, s, c, x.now, x.permit, x.requestId, edited.value);
      }
      var e := if edited.Ok? then Ok(edited.value.store) else Err(edited.error);
      UpdateKeepsHistories(w, written, name, a.machine, e, x.save);
    }
  }

  lemma OtherHistories(w: Widths, written: Written, wire: set<SignedFact>, name: string, a: A.Sidecar, k: Marks,
                       x: A.Action, b: A.Sidecar)
    requires AllChains(written) && Sent(written, wire) && MemberOk(written, name, a, k)
    requires x.Other? && Hears(wire, x) && A.OtherStep(w, a, x, b)
    ensures var after := WrittenAfter(written, a.machine, b.machine);
      AllChains(after) && Histories(after, name, b.machine) && Grown(written, after)
  {
    var s := a.machine.mem;
    var e := Apply(s, x.edit);
    if !a.machine.poisoned && e.Ok? {
      HeardIsHonest(written, wire, name, a.machine, x.edit, x.save);
      EveryEditIsGood(s, x.edit, e.value);
      EditKeepsAhead(written, s, x.edit, e.value);
      EditKeepsName(s, x.edit, e.value);
    }
    UpdateKeepsHistories(w, written, name, a.machine, e, x.save);
  }

  lemma EditKeepsName(s: Store, edit: Edit, e: Store)
    requires GoodStore(s) && Apply(s, edit) == Ok(e) && GoodEdit(s, e)
    ensures e.name == s.name
  {
  }

  lemma CompleteHistories(w: Widths, written: Written, name: string, a: A.Sidecar, k: Marks, x: A.Action, b: A.Sidecar)
    requires AllChains(written) && MemberOk(written, name, a, k)
    requires x.Complete? && x.id in a.tasks && a.tasks[x.id].phase.Ended? && b == A.AfterComplete(w, a, x)
    ensures var after := WrittenAfter(written, a.machine, b.machine);
      AllChains(after) && Histories(after, name, b.machine) && Grown(written, after)
  {
    var s, task := a.machine.mem, a.tasks[x.id];
    var e := FinishEdit(s, task.grant, task.run, task.phase.outcome);
    if !a.machine.poisoned {
      FinishServes(s, k.memory, task, e.value);
      FinishRow(s, task.grant, task.run, task.phase.outcome, e.value);
      SameEntries(written, s, e.value);
    }
    UpdateKeepsHistories(w, written, name, a.machine, e, x.save);
    MarkHistories(written, name, a.machine, UpdateWith(w, a.machine, e, x.save).0, x.id, x.reason);
  }

  lemma MarkHistories(written: Written, name: string, m: Machine, u: Machine, id: string, reason: string)
    requires Histories(WrittenAfter(written, m, u), name, u)
    ensures var v := u.(mem := A.MarkRow(u.mem, id, reason));
      Histories(WrittenAfter(written, m, v), name, v) && WrittenAfter(written, m, v) == WrittenAfter(written, m, u)
  {
    SameEntries(WrittenAfter(written, m, u), u.mem, A.MarkRow(u.mem, id, reason));
  }

  lemma RestartHistories(w: Widths, written: Written, name: string, a: A.Sidecar, k: Marks, x: A.Action, b: A.Sidecar)
    requires AllChains(written) && MemberOk(written, name, a, k) && x.Restart? && b == A.AfterRestart(w, a, x)
    ensures var after := WrittenAfter(written, a.machine, b.machine);
      AllChains(after) && Histories(after, name, b.machine) && Grown(written, after)
  {
    var disk := a.machine.disk;
    var m, rows := Machine(disk, disk, false), disk.(jobs := RecoverRows(disk.jobs, disk.name));
    RecoverIsGood(disk);
    SameEntries(written, disk, rows);
    UpdateKeepsHistories(w, written, name, m, Ok(rows), x.save);
    RestartShape(w, a, x, b, rows);
    if b.machine != m && b.machine != UpdateWith(w, m, Ok(rows), x.save).0 {
      StoppedHistories(w, written, name, m, rows, x.save, b.machine);
    }
  }

  /** Recovered at once, recovered by an update, or stopped with the recovered rows in memory only. */
  lemma RestartShape(w: Widths, a: A.Sidecar, x: A.Action, b: A.Sidecar, rows: Store)
    requires x.Restart? && b == A.AfterRestart(w, a, x)
    requires rows == a.machine.disk.(jobs := RecoverRows(a.machine.disk.jobs, a.machine.disk.name))
    ensures var m := Machine(a.machine.disk, a.machine.disk, false);
      b.machine in {m, UpdateWith(w, m, Ok(rows), x.save).0,
                    Machine(rows, UpdateWith(w, m, Ok(rows), x.save).0.disk, true)}
  {
  }

  lemma StoppedHistories(w: Widths, written: Written, name: string, m: Machine, rows: Store, save: Save,
                         stopped: Machine)
    requires m.mem == m.disk && !m.poisoned && Histories(written, name, m)
    requires rows.entries == m.disk.entries && rows.name == m.disk.name && rows.key == m.disk.key
    requires stopped == Machine(rows, UpdateWith(w, m, Ok(rows), save).0.disk, true)
    requires var u := UpdateWith(w, m, Ok(rows), save).0; Histories(WrittenAfter(written, m, u), name, u)
    ensures Histories(WrittenAfter(written, m, stopped), name, stopped)
  {
    var u := UpdateWith(w, m, Ok(rows), save).0;
    SameEntries(written, m.disk, rows);
    LoggedGrows(written, u.disk);
    StillFollows(written, WrittenAfter(written, m, u), rows);
  }

  lemma StepHistories(w: Widths, n: World, name: string, x: A.Action, b: A.Sidecar)
    requires WorldOk(n) && name in n.sidecars && Hears(n.wire, x) && Sensible(n.sidecars[name], x)
    requires A.Step(w, n.sidecars[name], x, b)
    ensures var after := WrittenAfter(n.written, n.sidecars[name].machine, b.machine);
      AllChains(after) && Histories(after, name, b.machine) && Grown(n.written, after)
  {
    var a, k := n.sidecars[name], n.marks[name];
    assert MemberOk(n.written, name, a, k);
    HeardIsProper(n, name, x);
    match x
    case Submit(_, _, _, _, _) => SubmitHistories(w, n.written, name, a, k, x, b);
    case ProcessEnds(_, _) =>
    case Complete(_, _, _) => CompleteHistories(w, n.written, name, a, k, x, b);
    case Other(_, _) => OtherHistories(w, n.written, n.wire, name, a, k, x, b);
    case Restart(_) => RestartHistories(w, n.written, name, a, k, x, b);
  }

  // ---- One step of the world

  lemma OtherHistoriesStay(written: Written, name: string, t: Store, other: string, m: Machine)
    requires Histories(written, other, m) && t.name == name != other
    ensures Histories(Logged(written, t), other, m)
  {
    LoggedGrows(written, t);
    StillFollows(written, Logged(written, t), m.mem);
    StillAhead(written, t, m.disk);
    if !m.poisoned {
      StillAhead(written, t, m.mem);
    }
  }

  lemma SentStays(before: Written, after: Written, wire: set<SignedFact>)
    requires Sent(before, wire) && Grown(before, after)
    ensures Sent(after, wire)
  {
    forall f | f in wire ensures f in after(Slot(f.fact.invocation, f.fact.role)) {
      GrownMembers(before, after, Slot(f.fact.invocation, f.fact.role), f);
    }
  }

  lemma OtherMemberStays(written: Written, name: string, m: Machine, m': Machine, other: string, a: A.Sidecar, k: Marks)
    requires MemberOk(written, other, a, k) && other != name && m'.disk.name == name
    ensures MemberOk(WrittenAfter(written, m, m'), other, a, k)
  {
    if m'.disk != m.disk {
      OtherHistoriesStay(written, name, m'.disk, other, a.machine);
    }
  }

  lemma OthersStay(n: World, name: string, m': Machine, after: Written)
    requires WorldOk(n) && name in n.sidecars && m'.disk.name == name && Grown(n.written, after)
    requires after == WrittenAfter(n.written, n.sidecars[name].machine, m')
    ensures Sent(after, n.wire)
    ensures forall other :: other in n.sidecars && other != name ==>
      MemberOk(after, other, n.sidecars[other], n.marks[other])
  {
    SentStays(n.written, after, n.wire);
    forall other | other in n.sidecars && other != name
      ensures MemberOk(after, other, n.sidecars[other], n.marks[other])
    {
      OtherMemberStays(n.written, name, n.sidecars[name].machine, m', other, n.sidecars[other], n.marks[other]);
    }
  }

  lemma MemberKeeps(w: Widths, n: World, name: string, x: A.Action, b: A.Sidecar)
    requires WorldOk(n) && name in n.sidecars && Hears(n.wire, x) && Sensible(n.sidecars[name], x)
    requires A.Step(w, n.sidecars[name], x, b)
    ensures var a := n.sidecars[name];
      var after := WrittenAfter(n.written, a.machine, b.machine);
      && AllChains(after) && Grown(n.written, after) && b.machine.disk.name == name
      && MemberOk(after, name, b, NextMarks(w, a, x, b, n.marks[name]))
  {
    assert MemberOk(n.written, name, n.sidecars[name], n.marks[name]);
    HeardIsProper(n, name, x);
    StepServed(w, n.sidecars[name], n.marks[name], x, b);
    StepHistories(w, n, name, x, b);
  }

  lemma HoldsAfterPut<T, U>(p: (string, T, U) -> bool, ts: map<string, T>, us: map<string, U>,
                            name: string, ts': map<string, T>, us': map<string, U>)
    requires ts.Keys == us.Keys && name in ts' && name in us' && p(name, ts'[name], us'[name])
    requires ts' == ts[name := ts'[name]] && us' == us[name := us'[name]]
    requires forall other :: other in ts && other != name ==> p(other, ts[other], us[other])
    ensures forall other :: other in ts' ==> p(other, ts'[other], us'[other])
  {
  }

  lemma Assembled(n: World, name: string, b: A.Sidecar, k: Marks, after: Written)
    requires n.marks.Keys == n.sidecars.Keys && name in n.sidecars
    requires AllChains(after) && Sent(after, n.wire) && MemberOk(after, name, b, k)
    requires forall other :: other in n.sidecars && other != name ==>
      MemberOk(after, other, n.sidecars[other], n.marks[other])
    ensures WorldOk(World(n.sidecars[name := b], n.marks[name := k], n.wire, after))
  {
    HoldsAfterPut((x, a, m) => MemberOk(after, x, a, m), n.sidecars, n.marks, name,
                  n.sidecars[name := b], n.marks[name := k]);
  }

  lemma LocalKeeps(w: Widths, n: World, name: string, x: A.Action, n': World)
    requires WorldOk(n) && Moves(w, n, Local(name, x), n')
    ensures WorldOk(n')
  {
    var a, b := n.sidecars[name], n'.sidecars[name];
    MemberKeeps(w, n, name, x, b);
    OthersStay(n, name, b.machine, n'.written);
    Assembled(n, name, b, NextMarks(w, a, x, b, n.marks[name]), n'.written);
  }

  lemma MoveKeeps(w: Widths, n: World, move: Move, n': World)
    requires WorldOk(n) && Moves(w, n, move, n')
    ensures WorldOk(n')
  {
    match move
    case Local(name, x) => LocalKeeps(w, n, name, x, n');
    case Relay(name, key) =>
      assert MemberOk(n.written, name, n.sidecars[name], n.marks[name]);
      forall f | f in n'.wire ensures f in n.written(Slot(f.fact.invocation, f.fact.role)) {
        if f !in n.wire {
          RelayedIsWritten(n.written, n.sidecars[name].machine.mem, key, f);
        }
      }
  }

  lemma EveryMoveKeeps(w: Widths)
    ensures forall n, move, n' :: WorldOk(n) && Moves(w, n, move, n') ==> WorldOk(n')
  {
    forall n, move, n' | WorldOk(n) && Moves(w, n, move, n') ensures WorldOk(n') {
      MoveKeeps(w, n, move, n');
    }
  }

  // ---- Every run

  /** New machines: nothing signed yet, nothing sent. */
  ghost predicate WorldInit(n: World) {
    && n.wire == {} && (forall x :: n.written(x) == []) && n.marks.Keys == n.sidecars.Keys
    && forall name :: name in n.sidecars ==>
         && n.marks[name] == Marks({}, {}) && A.Init(n.sidecars[name])
         && var s := n.sidecars[name].machine.mem;
            s.name == name && s.entries == map[] && Ready(s)
  }

  ghost predicate WorldRun(w: Widths, worlds: seq<World>, moves: seq<Move>) {
    && |worlds| == |moves| + 1 && WorldInit(worlds[0])
    && forall i {:trigger moves[i]} :: 0 <= i < |moves| ==> Moves(w, worlds[i], moves[i], worlds[i + 1])
  }

  lemma WorldInitOk(n: World)
    requires WorldInit(n)
    ensures WorldOk(n)
  {
    forall name | name in n.sidecars ensures MemberOk(n.written, name, n.sidecars[name], n.marks[name]) {
      StartInService(n.sidecars[name]);
    }
  }

  lemma WorldsStayOk(w: Widths, worlds: seq<World>, moves: seq<Move>, i: nat)
    requires WorldRun(w, worlds, moves) && i < |worlds|
    ensures WorldOk(worlds[i])
  {
    WorldInitOk(worlds[0]);
    EveryMoveKeeps(w);
    for n := 0 to i
      invariant WorldOk(worlds[n])
    {
      var move := moves[n];
    }
  }

  /** With any number of machines relaying to each other, the rows that do not say what their facts say are on each
      machine exactly those whose completion was refused there. */
  lemma UnpublishedIffRefusedAnywhere(w: Widths, worlds: seq<World>, moves: seq<Move>, i: nat, name: string)
    requires WorldRun(w, worlds, moves) && i < |worlds| && name in worlds[i].sidecars && name in worlds[i].marks
    ensures var disk := worlds[i].sidecars[name].machine.disk;
      forall j :: 0 <= j < |disk.jobs| ==>
        (Agrees(disk, disk.jobs[j]) <==> disk.jobs[j].id !in worlds[i].marks[name].file)
    ensures var m := worlds[i].sidecars[name].machine;
      !m.poisoned ==>
        forall j :: 0 <= j < |m.mem.jobs| ==>
          (Agrees(m.mem, m.mem.jobs[j]) <==> m.mem.jobs[j].id !in worlds[i].marks[name].memory)
  {
    WorldsStayOk(w, worlds, moves, i);
    var a, k := worlds[i].sidecars[name], worlds[i].marks[name];
    assert MemberOk(worlds[i].written, name, a, k);
    ExactlyLostDisagree(a.machine.disk, k.file);
    if !a.machine.poisoned {
      ExactlyLostDisagree(a.machine.mem, k.memory);
    }
  }

  function NetOf(n: World): Net {
    Net(map name | name in n.sidecars :: n.sidecars[name].machine, n.wire, n.written)
  }

  lemma FoundHereIsWritten(n: World, x: Slot, f: SignedFact)
    requires WorldOk(n) && Found(NetOf(n), x, f)
    ensures f in n.written(x)
  {
    if !(f in n.wire && x == Slot(f.fact.invocation, f.fact.role)) {
      var name :| name in n.sidecars
        && var m := n.sidecars[name].machine; Some(f) in {Held(m.mem.entries, x), Held(m.disk.entries, x)};
      assert MemberOk(n.written, name, n.sidecars[name], n.marks[name]);
    }
  }

  /** What any machine shows as the end of a run is what the file of the machine that ran it says: its row has that
      status and those streams. Crashes, refused completions, lost saves and relays through others do not change
      that. */
  lemma FinishedAnywhereFinishedHere(w: Widths, worlds: seq<World>, moves: seq<Move>, i: nat,
                                     k: Invocation, f: SignedFact)
    requires WorldRun(w, worlds, moves) && i < |worlds| && k.body in worlds[i].sidecars
    requires Found(NetOf(worlds[i]), Slot(k, Runner), f) && IsTerminal(f.fact.status)
    requires worlds[i].sidecars[k.body].machine.disk.key == k.runnerKey
    ensures var disk := worlds[i].sidecars[k.body].machine.disk;
      && k.id in disk.certs && disk.certs[k.id] == k && FindJob(disk.jobs, k.id).Some?
      && FactSaysRow(f.fact, disk.outputPruned, FindJob(disk.jobs, k.id).value)
  {
    var n := worlds[i];
    WorldsStayOk(w, worlds, moves, i);
    var a, marks := n.sidecars[k.body], n.marks[k.body];
    assert MemberOk(n.written, k.body, a, marks);
    FoundHereIsWritten(n, Slot(k, Runner), f);
    EndIsHeld(n.written, a.machine.disk, k, f);
    EndSaysRow(a.machine.disk, marks.file, k, f);
  }

  lemma EndIsHeld(written: Written, s: Store, k: Invocation, f: SignedFact)
    requires AllChains(written) && Ahead(written, s) && k.body == s.name && k.runnerKey == s.key
    requires f in written(Slot(k, Runner)) && IsTerminal(f.fact.status)
    ensures RunnerFact(s.entries, k) == Some(f)
  {
    var x := Slot(k, Runner);
    var i := ChainPlace(x, written(x), f);
    assert Owns(s.name, s.key, x);
  }

  lemma EndSaysRow(s: Store, lost: set<string>, k: Invocation, f: SignedFact)
    requires GoodStore(s) && PublishedBut(s, lost) && k.body == s.name
    requires RunnerFact(s.entries, k) == Some(f) && IsTerminal(f.fact.status)
    ensures k.id in s.certs && s.certs[k.id] == k && FindJob(s.jobs, k.id).Some?
    ensures FactSaysRow(f.fact, s.outputPruned, FindJob(s.jobs, k.id).value)
  {
    assert BelongsHere(s, k);
    var i := JobIndex(s.jobs, k.id);
    assert k.id in lost ==> Apart(s, k.id);
    assert s.jobs[i].id == k.id;
  }

  // ---- Within the charge

  ghost predicate AllWithinCharge(w: Widths, n: World) {
    forall name :: name in n.sidecars ==> WithinCharge(w, n.sidecars[name].machine)
  }

  ghost predicate NoMarks(n: World) {
    forall name :: name in n.marks ==> n.marks[name] == Marks({}, {})
  }

  lemma LocalUnmarked(w: Widths, n: World, name: string, x: A.Action, b: A.Sidecar)
    requires WorldOk(n) && name in n.sidecars && n.marks[name] == Marks({}, {}) && Plausible(w)
    requires WithinCharge(w, n.sidecars[name].machine) && StepsLeft(n.sidecars[name], x)
    requires Hears(n.wire, x) && Sensible(n.sidecars[name], x) && A.Step(w, n.sidecars[name], x, b)
    ensures NextMarks(w, n.sidecars[name], x, b, Marks({}, {})) == Marks({}, {}) && WithinCharge(w, b.machine)
  {
    HeardIsProper(n, name, x);
    assert MemberOk(n.written, name, n.sidecars[name], n.marks[name]);
    StepUnmarked(w, n.sidecars[name], x, b);
  }

  lemma OthersUnmarked(w: Widths, n: World, name: string, n': World)
    requires NoMarks(n) && AllWithinCharge(w, n) && name in n'.sidecars && name in n'.marks
    requires n'.sidecars == n.sidecars[name := n'.sidecars[name]] && n'.marks == n.marks[name := n'.marks[name]]
    requires n'.marks[name] == Marks({}, {}) && WithinCharge(w, n'.sidecars[name].machine)
    ensures NoMarks(n') && AllWithinCharge(w, n')
  {
  }

  lemma MoveUnmarked(w: Widths, n: World, move: Move, n': World)
    requires WorldOk(n) && NoMarks(n) && AllWithinCharge(w, n) && Plausible(w) && Moves(w, n, move, n')
    requires move.Local? ==> StepsLeft(n.sidecars[move.name], move.action)
    ensures NoMarks(n') && AllWithinCharge(w, n')
  {
    match move
    case Relay(_, _) =>
    case Local(name, x) =>
      LocalUnmarked(w, n, name, x, n'.sidecars[name]);
      OthersUnmarked(w, n, name, n');
  }

  ghost predicate RoomToEnd(worlds: seq<World>, moves: seq<Move>)
    requires |worlds| == |moves| + 1
  {
    forall i {:trigger moves[i]} :: 0 <= i < |moves| && moves[i].Local? && moves[i].name in worlds[i].sidecars ==>
      StepsLeft(worlds[i].sidecars[moves[i].name], moves[i].action)
  }

  /** If each machine starts within its charge, and its change counter has steps left when runs end, every job run
      anywhere is published as it is, on every machine and at every moment. */
  lemma EveryMachinePublishes(w: Widths, worlds: seq<World>, moves: seq<Move>, i: nat, name: string)
    requires WorldRun(w, worlds, moves) && i < |worlds| && Plausible(w) && AllWithinCharge(w, worlds[0])
    requires RoomToEnd(worlds, moves) && name in worlds[i].sidecars
    ensures var m := worlds[i].sidecars[name].machine;
      PublishedBut(m.disk, {}) && (!m.poisoned ==> PublishedBut(m.mem, {}))
  {
    WorldInitOk(worlds[0]);
    for n := 0 to i
      invariant WorldOk(worlds[n]) && NoMarks(worlds[n]) && AllWithinCharge(w, worlds[n])
    {
      var move := moves[n];
      MoveKeeps(w, worlds[n], move, worlds[n + 1]);
      MoveUnmarked(w, worlds[n], move, worlds[n + 1]);
    }
    assert MemberOk(worlds[i].written, name, worlds[i].sidecars[name], worlds[i].marks[name]);
  }
}
