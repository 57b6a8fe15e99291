/** A run of the sidecar in which a completion is refused: the change counter is used up when the run ends, and
    the next update saves the rewritten row without publishing it. */
module Refusals {
  import opened Types
  import opened History
  import opened Sums
  import opened Encoding
  import opened Storage
  import opened Update
  import opened Execution
  import opened Edits
  import opened Saves
  import opened Publication
  import opened Chains
  import opened Completion
  import A = Admission

  // ---- One machine, one grant, one run

  function Tool(): Grant {
    Grant("tool", "/bin/tool", None, false, None, None, None, None, 0)
  }

  function Key(): Invocation {
    Invocation("job", "here", 1, "here", 1, ["tool"], None)
  }

  function Row(status: Status): Job {
    Job("job", "here", "here", ["tool"], status, [], [])
  }

  function RunEntry(change: nat): Entry {
    var fact := Fact(Key(), Runner, 1, Running, OutputOf([]), OutputOf([]));
    Entry(Record(Admitted(Key()), None, Some(SignedFact(fact, Signed(1, Statement(fact))))), change, None)
  }

  function NewStore(clock: nat): Store {
    Store("here", 1, [], [Tool()], [], [], "epoch", clock, {}, map[], map[], map[], map[], {}, {})
  }

  /** With the job's row, whatever it says, and its fact, which says that it runs. */
  function OneRun(clock: nat, status: Status): Store {
    NewStore(clock).(jobs := [Row(status)], entries := map[Key() := RunEntry(clock)], certs := map["job" := Key()])
  }

  /** Lengths of the texts that are not modelled: `other` for all fields no operation changes. */
  function Lengths(other: nat): Widths {
    Widths(_ => other, _ => 0, _ => 0, _ => 0)
  }

  // ---- Its saved text

  lemma OneEntrySum(s: Store, f: Entry -> nat)
    requires s.entries.Keys == {Key()}
    ensures EntrySum(s.entries, f) == f(s.entries[Key()])
  {
    SumTake(s.entries.Keys, AtEntry(s.entries, f), Key());
    assert s.entries.Keys - {Key()} == {};
  }

  lemma OneSum<T>(x: T, f: T -> nat)
    ensures SumSeq([x], f) == f(x)
  {
    assert [x][1..] == [];
  }

  lemma OneRunBytes(clock: nat, status: Status)
    ensures OutputBytes(OneRun(clock, status)) == 0 && PayloadLen(OneRun(clock, status)) == 0
  {
    var s := OneRun(clock, status);
    OneEntrySum(s, (e: Entry) => RetainedBytes(e.output));
    OneEntrySum(s, (e: Entry) => OutputLen(e.output));
    OneSum(Row(status), (j: Job) => JobBytes(j));
    OneSum(Row(status), (j: Job) => JobPayload(j));
  }

  lemma RowLength(status: Status)
    ensures JobRow(Row(status)) <= 200 + StatusLen(status)
  {
    OneSum("tool", (t: string) => Quoted(t));
  }

  lemma EntryLength(other: nat, change: nat)
    requires change <= MAX_U64
    ensures EntryRow(Lengths(other), RunEntry(change)) <= 700
  {
    DigitsOfU64(change);
  }

  lemma OneRunLength(other: nat, clock: nat, status: Status)
    requires clock <= MAX_U64 && StatusLen(status) <= 100
    ensures other <= EncodedLen(Lengths(other), OneRun(clock, status)) <= other + 1100
  {
    var s, w := OneRun(clock, status), Lengths(other);
    OneRunBytes(clock, status);
    DigitsOfU64(clock);
    RowLength(status);
    EntryLength(other, clock);
    OneSum(Tool(), GrantRow(w));
    OneSum(Row(status), (j: Job) => JobRow(j));
    OneEntrySum(s, (e: Entry) => EntryRow(w, e));
    assert |s.entries| == |s.entries.Keys| == 1;
  }

  // ---- Updates that change nothing more

  lemma NothingToDrop(clock: nat, status: Status)
    ensures var s := OneRun(clock, status);
      NormalizeOutput(s) == s && CandidateKeys(s) == {} && Evict(s) == Ok(s) && Storage.Prune(s, 0) == Ok(s)
  {
    var s := OneRun(clock, status);
    OneRunBytes(clock, status);
    assert ForgetPruned(s) == s;
    assert NormalizeJob(s, 0) == s;
    assert NormalizeJobs(s, 1) == s;
    assert JobBytes(Row(status)) == 0;
    assert s.entries.Keys == {Key()};
    assert CandidateKeys(s) == {};
    assert Candidates(s) == [];
  }

  lemma SettledDown(w: Widths, e: Store, s: Store, t: Store)
    requires RefreshOwned(e, s) == Ok(t) && NormalizeOutput(t) == t && Evict(t) == Ok(t)
    requires WithinCounts(t, s) && Admissible(w, t, s)
    ensures Commit(w, e, s) == Ok(t)
  {
  }

  lemma QuietCommit(w: Widths, clock: nat, status: Status, s: Store)
    requires s == OneRun(clock, status) && EncodedLen(w, s) <= STATE_BYTES
    ensures Commit(w, s, s) == Ok(s)
  {
    assert TrustOf([]) == {};
    NothingToPublish(s, s);
    NothingToDrop(clock, status);
    SettledDown(w, s, s, s);
  }

  // ---- Admitting the run with the last two steps of the change counter

  lemma OneRunReserve(clock: nat)
    ensures var s := OneRun(clock, Running);
      && SumSeq(s.jobs, JobReceipt(s.outputPruned)) <= 30 && Sum(s.entries.Keys, KeyReceipt(s.historyPruned)) <= 67
      && EntrySum(s.entries, (e: Entry) => Headroom(e.change)) <= 20 && SumSeq(s.jobs, (j: Job) => Pending(j)) <= 1
  {
    var s := OneRun(clock, Running);
    OneSum(Row(Running), JobReceipt({}));
    OneSum(Row(Running), (j: Job) => Pending(j));
    SumTake(s.entries.Keys, KeyReceipt({}), Key());
    assert s.entries.Keys - {Key()} == {};
    OneEntrySum(s, (e: Entry) => Headroom(e.change));
  }

  lemma OneRunCharge(other: nat, clock: nat)
    requires clock <= MAX_U64
    ensures Charge(Lengths(other), OneRun(clock, Running)) <= other + 70 * 1024 * 1024
  {
    OneRunLength(other, clock, Running);
    OneRunReserve(clock);
    ChargeAtMost(OneRun(clock, Running), EncodedLen(Lengths(other), OneRun(clock, Running)));
  }

  lemma ChargeAtMost(s: Store, encoded: nat)
    requires SumSeq(s.jobs, JobReceipt(s.outputPruned)) <= 30 && Sum(s.entries.Keys, KeyReceipt(s.historyPruned)) <= 67
    requires EntrySum(s.entries, (e: Entry) => Headroom(e.change)) <= 20
    requires SumSeq(s.jobs, (j: Job) => Pending(j)) <= 1
    ensures CompletionCharge(s, encoded) <= encoded + 67 * 1024 * 1024
  {
    assert Headroom(s.clock) <= 20;
  }

  lemma Publishes(clock: nat)
    requires clock + 2 <= MAX_U64
    ensures var s := NewStore(clock);
      RefreshOwned(s.(jobs := [Row(Running)]), s) == Ok(OneRun(clock + 2, Running))
  {
    var s := NewStore(clock);
    var e := s.(jobs := [Row(Running)]);
    assert TrustOf([]) == {};
    assert [Row(Running)][1..] == [];
    assert ChangedJobs(e.jobs, []) == [Row(Running)];
    var c := Certify(e, [], Row(Running)).value;
    assert c == e.(clock := clock + 1, certs := map["job" := Key()],
                   entries := map[Key() := Entry(Record(Admitted(Key()), None, None), clock + 1, None)]);
    assert PublishJob(e, [], Row(Running)) == WriteFact(c, Row(Running), Runner, (OutputOf([]), OutputOf([])));
    var t := PublishJob(e, [], Row(Running)).value;
    assert t.entries[Key()] == RunEntry(clock + 2);
    assert t.entries == map[Key() := RunEntry(clock + 2)];
    assert t == OneRun(clock + 2, Running);
    assert PublishJobs(OneRun(clock + 2, Running), [], []) == Ok(OneRun(clock + 2, Running));
  }

  function TheCall(): Call {
    Call("job", "here", ["tool"], None)
  }

  lemma Submits(clock: nat, now: Now)
    ensures var s := NewStore(clock);
      && Gate(s, TheCall()) == Ok(None)
      && SubmitEdit(s, TheCall(), now, true, "") == Ok(Accepted(s.(jobs := [Row(Running)]), Some(Tool())))
  {
    assert TotalBytes(["tool"]) == 4 by {
      assert ["tool"][1..] == [];
    }
    var s := NewStore(clock);
    assert s.grants[GrantIndex(s.grants, "tool")] == Tool();
    assert CheckRun(s, "here", ["tool"], now) == Ok(Tool());
    assert PutJob([], NewRow(s, TheCall(), Running)) == [Row(Running)];
  }

  // ---- The run

  function Calls(now: Now): A.Action {
    A.Submit(TheCall(), now, true, "", Saved)
  }

  function Ends(out: seq<byte>): A.Action {
    A.ProcessEnds("job", Exited(0, out, [], None))
  }

  function Completes(reason: string): A.Action {
    A.Complete("job", reason, Saved)
  }

  function GoesOn(): A.Action {
    A.Other(Discard(0), Saved)
  }

  function Start(clock: nat): A.Sidecar {
    A.Sidecar(Machine(NewStore(clock), NewStore(clock), false), map[], [], 1)
  }

  function TheTask(phase: A.Phase): A.Task {
    A.Task(Tool(), Row(Running), phase)
  }

  /** Admitted and started, with the change counter at its end. */
  function Executing(clock: nat): A.Sidecar {
    var s := OneRun(clock, Running);
    A.Sidecar(Machine(s, s, false), map["job" := TheTask(A.Executing)], [A.Started("job", 0, false)], 1)
  }

  function Ended(clock: nat, out: seq<byte>): A.Sidecar {
    Executing(clock).(tasks := map["job" := TheTask(A.Ended(Exited(0, out, [], None)))],
                      log := [A.Started("job", 0, false), A.Stopped("job", Some(true))])
  }

  /** The row in memory is rewritten; the file still says that the job runs. */
  function Turned(clock: nat, reason: string): A.Sidecar {
    Ended(clock, []).(tasks := map[], machine := Machine(OneRun(clock, Uncertain(reason)), OneRun(clock, Running),
                                                             false))
  }

  function Lost(clock: nat, reason: string): A.Sidecar {
    var s := OneRun(clock, Uncertain(reason));
    Turned(clock, reason).(machine := Machine(s, s, false), next := 2)
  }

  lemma SavedUpdate(w: Widths, m: Machine, e: Store, t: Store)
    requires !m.poisoned && Commit(w, e, m.mem) == Ok(t)
    ensures UpdateWith(w, m, Ok(e), Saved) == (Machine(t, t, false), Ok(()))
  {
  }

  lemma AdmissionCommits(other: nat, n: nat, s: Store, e: Store, t: Store)
    requires n <= MAX_U64 && other <= 1000 && t == OneRun(n, Running)
    requires RefreshOwned(e, s) == Ok(t) && WithinCounts(t, s)
    ensures Commit(Lengths(other), e, s) == Ok(t)
  {
    AdmissionFits(other, n, s);
    NothingToDrop(n, Running);
    SettledDown(Lengths(other), e, s, t);
  }

  lemma AdmissionFits(other: nat, clock: nat, s: Store)
    requires clock <= MAX_U64 && other <= 1000
    ensures Admissible(Lengths(other), OneRun(clock, Running), s)
  {
    var t, w := OneRun(clock, Running), Lengths(other);
    OneRunLength(other, clock, Running);
    OneRunCharge(other, clock);
    Fits(w, t, s);
  }

  lemma CountsFit(clock: nat)
    ensures WithinCounts(OneRun(clock + 2, Running), NewStore(clock))
  {
    assert |OneRun(clock + 2, Running).entries.Keys| == 1;
  }

  lemma Fits(w: Widths, t: Store, s: Store)
    requires EncodedLen(w, t) <= STATE_BYTES && Charge(w, t) <= STATE_BYTES
    ensures Admissible(w, t, s)
  {
  }

  /** An admission that starts a process. */
  lemma SubmitStep(w: Widths, a: A.Sidecar, x: A.Action, e: Store, g: Grant, t: Store, b: A.Sidecar)
    requires x.Submit? && x.save.Saved? && x.call.argv != []
    requires !a.machine.poisoned && Gate(a.machine.mem, x.call) == Ok(None)
    requires SubmitEdit(a.machine.mem, x.call, x.now, x.permit, x.requestId) == Ok(Accepted(e, Some(g)))
    requires Commit(w, e, a.machine.mem) == Ok(t)
    requires b == a.(machine := Machine(t, t, false),
                     tasks := a.tasks[x.call.id := A.Task(g, NewRow(a.machine.mem, x.call, Running), A.Executing)],
                     log := a.log + [A.Started(x.call.id, g.instance, g.once)])
    ensures A.Step(w, a, x, b)
  {
    SavedUpdate(w, a.machine, e, t);
  }

  lemma AdmissionSaves(clock: nat)
    requires clock + 2 <= MAX_U64
    ensures Commit(Lengths(0), NewStore(clock).(jobs := [Row(Running)]), NewStore(clock))
      == Ok(OneRun(clock + 2, Running))
  {
    Publishes(clock);
    CountsFit(clock);
    AdmissionCommits(0, clock + 2, NewStore(clock), NewStore(clock).(jobs := [Row(Running)]),
        OneRun(clock + 2, Running));
  }

  lemma Starts(clock: nat, now: Now)
    requires clock + 2 <= MAX_U64
    ensures A.Step(Lengths(0), Start(clock), Calls(now), Executing(clock + 2))
  {
    Submits(clock, now);
    AdmissionSaves(clock);
    assert NewRow(NewStore(clock), TheCall(), Running) == Row(Running);
    SubmitStep(Lengths(0), Start(clock), Calls(now), NewStore(clock).(jobs := [Row(Running)]), Tool(),
               OneRun(clock + 2, Running), Executing(clock + 2));
  }

  lemma StartIsReady(clock: nat)
    requires clock <= MAX_U64
    ensures A.Init(Start(clock)) && Ready(NewStore(clock))
  {
    assert TrustOf([]) == {};
    NewStoreIsReady(NewStore(clock));
  }

  lemma SubmitIsProper(clock: nat, now: Now)
    ensures Proper(Start(clock), Calls(now))
  {
  }

  lemma ProcessEndsStep(w: Widths, clock: nat, out: seq<byte>)
    ensures A.Step(w, Executing(clock), Ends(out), Ended(clock, out))
  {
  }

  lemma TwoServed(w: Widths, a: A.Sidecar, x: A.Action, b: A.Sidecar, y: A.Action, c: A.Sidecar) returns (k: Marks)
    requires A.Init(a) && Ready(a.machine.mem) && Proper(a, x)
    requires Proper(b, y) && A.Step(w, a, x, b) && A.Step(w, b, y, c)
    ensures InService(c, k)
  {
    StartInService(a);
    k := NextMarks(w, a, x, b, Marks({}, {}));
    StepServed(w, a, Marks({}, {}), x, b);
    StepServed(w, b, k, y, c);
    k := NextMarks(w, b, y, c, k);
  }

  /** With no step of the change counter left, the end of a run is refused. */
  lemma RefusedAtEnd(w: Widths, a: A.Sidecar, k: Marks, x: A.Action)
    requires InService(a, k) && x.Complete? && x.id in a.tasks && a.tasks[x.id].phase.Ended? && Plausible(w)
    requires !a.machine.poisoned && a.machine.mem.clock == MAX_U64
    ensures Refused(w, a, x)
  {
    RefusedIff(w, a, k, x);
  }

  lemma RefusedStep(w: Widths, a: A.Sidecar, x: A.Action, b: A.Sidecar)
    requires Refused(w, a, x)
    requires b == a.(tasks := a.tasks - {x.id}, machine := a.machine.(mem := A.MarkRow(a.machine.mem, x.id, x.reason)))
    ensures A.Step(w, a, x, b)
  {
    RefusedShape(w, a, x, A.AfterComplete(w, a, x));
  }

  lemma TurnedShape(clock: nat, out: seq<byte>, reason: string)
    ensures var a := Ended(clock, out);
      Turned(clock, reason) == a.(tasks := a.tasks - {"job"},
                                  machine := a.machine.(mem := A.MarkRow(a.machine.mem, "job", reason)))
  {
    MarksRow(clock, reason);
    assert Ended(clock, out).tasks - {"job"} == map[];
  }

  lemma MarksRow(clock: nat, reason: string)
    ensures A.MarkRow(OneRun(clock, Running), "job", reason) == OneRun(clock, Uncertain(reason))
  {
  }

  lemma EndedInService(clock: nat, out: seq<byte>, now: Now) returns (k: Marks)
    requires clock + 2 <= MAX_U64 && |out| <= STREAM_BYTES
    ensures InService(Ended(clock + 2, out), k)
  {
    StartIsReady(clock);
    SubmitIsProper(clock, now);
    Starts(clock, now);
    ProcessEndsStep(Lengths(0), clock + 2, out);
    k := TwoServed(Lengths(0), Start(clock), Calls(now), Executing(clock + 2), Ends(out), Ended(clock + 2, out));
  }

  lemma RefusesThere(now: Now, reason: string)
    ensures Refused(Lengths(0), Ended(MAX_U64, []), Completes(reason))
  {
    var k := EndedInService(MAX_U64 - 2, [], now);
    RefusedAtEnd(Lengths(0), Ended(MAX_U64, []), k, Completes(reason));
  }

  lemma TurnsDown(now: Now, reason: string)
    ensures A.Step(Lengths(0), Ended(MAX_U64, []), Completes(reason), Turned(MAX_U64, reason))
  {
    RefusesThere(now, reason);
    TurnedShape(MAX_U64, [], reason);
    RefusedStep(Lengths(0), Ended(MAX_U64, []), Completes(reason), Turned(MAX_U64, reason));
  }

  lemma QuietStep(w: Widths, a: A.Sidecar, b: A.Sidecar)
    requires var s := a.machine.mem;
      && Storage.Prune(s, 0) == Ok(s) && Commit(w, s, s) == Ok(s) && !a.machine.poisoned
      && b == a.(machine := Machine(s, s, false), next := a.next + 1)
    ensures A.Step(w, a, GoesOn(), b)
  {
    SavedUpdate(w, a.machine, a.machine.mem, a.machine.mem);
  }

  lemma GoesOnQuietly(w: Widths, clock: nat, reason: string)
    requires EncodedLen(w, OneRun(clock, Uncertain(reason))) <= STATE_BYTES
    ensures A.Step(w, Turned(clock, reason), GoesOn(), Lost(clock, reason))
  {
    QuietCommit(w, clock, Uncertain(reason), OneRun(clock, Uncertain(reason)));
    NothingToDrop(clock, Uncertain(reason));
    QuietStep(w, Turned(clock, reason), Lost(clock, reason));
  }

  lemma LostDisagrees(clock: nat, reason: string)
    ensures !Agrees(OneRun(clock, Uncertain(reason)), Row(Uncertain(reason)))
  {
  }

  ghost predicate ProperlyRuns(w: Widths, states: seq<A.Sidecar>, actions: seq<A.Action>) {
    A.Run(w, states, actions) && ProperRun(states, actions)
  }

  lemma StepOfRun(w: Widths, states: seq<A.Sidecar>, actions: seq<A.Action>, i: nat)
    requires ProperlyRuns(w, states, actions) && i < |actions|
    ensures A.Step(w, states[i], actions[i], states[i + 1]) && Proper(states[i], actions[i])
  {
    assert actions[i] == actions[i];
  }

  lemma ActionsGrow(w: Widths, states: seq<A.Sidecar>, actions: seq<A.Action>, x: A.Action, b: A.Sidecar, i: nat)
    requires ProperlyRuns(w, states, actions) && i <= |actions|
    requires A.Step(w, states[|actions|], x, b) && Proper(states[|actions|], x)
    ensures A.Step(w, (states + [b])[i], (actions + [x])[i], (states + [b])[i + 1])
    ensures Proper((states + [b])[i], (actions + [x])[i])
  {
    if i < |actions| {
      StepOfRun(w, states, actions, i);
    }
  }

  lemma RunGrows(w: Widths, states: seq<A.Sidecar>, actions: seq<A.Action>, x: A.Action, b: A.Sidecar)
    requires ProperlyRuns(w, states, actions)
    requires A.Step(w, states[|actions|], x, b) && Proper(states[|actions|], x)
    ensures ProperlyRuns(w, states + [b], actions + [x])
  {
    var s', x' := states + [b], actions + [x];
    forall i {:trigger x'[i]} | 0 <= i < |x'| ensures A.Step(w, s'[i], x'[i], s'[i + 1]) && Proper(s'[i], x'[i]) {
      ActionsGrow(w, states, actions, x, b, i);
    }
  }

  lemma RunStarts(w: Widths, a: A.Sidecar)
    requires A.Init(a)
    ensures ProperlyRuns(w, [a], [])
  {
  }

  lemma RunToStart(now: Now)
    ensures ProperlyRuns(Lengths(0), [Start(MAX_U64 - 2), Executing(MAX_U64)], [Calls(now)])
  {
    StartIsReady(MAX_U64 - 2);
    RunStarts(Lengths(0), Start(MAX_U64 - 2));
    SubmitIsProper(MAX_U64 - 2, now);
    Starts(MAX_U64 - 2, now);
    RunGrows(Lengths(0), [Start(MAX_U64 - 2)], [], Calls(now), Executing(MAX_U64));
    assert [Start(MAX_U64 - 2)] + [Executing(MAX_U64)] == [Start(MAX_U64 - 2), Executing(MAX_U64)];
    assert [] + [Calls(now)] == [Calls(now)];
  }

  lemma RunToEnd(now: Now)
    ensures ProperlyRuns(Lengths(0), [Start(MAX_U64 - 2), Executing(MAX_U64), Ended(MAX_U64, [])],
      [Calls(now), Ends([])])
  {
    var s, x := [Start(MAX_U64 - 2), Executing(MAX_U64)], [Calls(now)];
    RunToStart(now);
    ProcessEndsStep(Lengths(0), MAX_U64, []);
    RunGrows(Lengths(0), s, x, Ends([]), Ended(MAX_U64, []));
    assert s + [Ended(MAX_U64, [])] == [Start(MAX_U64 - 2), Executing(MAX_U64), Ended(MAX_U64, [])];
    assert x + [Ends([])] == [Calls(now), Ends([])];
  }

  function States(reason: string): seq<A.Sidecar> {
    [Start(MAX_U64 - 2), Executing(MAX_U64), Ended(MAX_U64, []), Turned(MAX_U64, reason)]
  }

  function Actions(now: Now, reason: string): seq<A.Action> {
    [Calls(now), Ends([]), Completes(reason)]
  }

  lemma RunToRefusal(now: Now, reason: string)
    ensures ProperlyRuns(Lengths(0), States(reason), Actions(now, reason))
  {
    var s, x := [Start(MAX_U64 - 2), Executing(MAX_U64), Ended(MAX_U64, [])], [Calls(now), Ends([])];
    RunToEnd(now);
    TurnsDown(now, reason);
    RunGrows(Lengths(0), s, x, Completes(reason), Turned(MAX_U64, reason));
    assert s + [Turned(MAX_U64, reason)] == States(reason);
    assert x + [Completes(reason)] == Actions(now, reason);
  }

  function WholeRun(reason: string): (states: seq<A.Sidecar>)
    ensures |states| == 5 && states[0] == Start(MAX_U64 - 2)
    ensures states[2] == Ended(MAX_U64, []) && states[4] == Lost(MAX_U64, reason)
  {
    States(reason) + [Lost(MAX_U64, reason)]
  }

  function WholeActions(now: Now, reason: string): (actions: seq<A.Action>)
    ensures |actions| == 4 && actions[2] == Completes(reason)
  {
    Actions(now, reason) + [GoesOn()]
  }

  lemma RunToLost(now: Now, reason: string)
    requires |reason| <= 12
    ensures ProperlyRuns(Lengths(0), WholeRun(reason), WholeActions(now, reason))
  {
    RunToRefusal(now, reason);
    OneRunLength(0, MAX_U64, Uncertain(reason));
    GoesOnQuietly(Lengths(0), MAX_U64, reason);
    RunGrows(Lengths(0), States(reason), Actions(now, reason), GoesOn(), Lost(MAX_U64, reason));
  }

  lemma NewStoreCharge(clock: nat)
    requires clock <= MAX_U64
    ensures Charge(Lengths(0), NewStore(clock)) <= STATE_BYTES
  {
    var s, w := NewStore(clock), Lengths(0);
    DigitsOfU64(clock);
    OneSum(Tool(), GrantRow(w));
    ChargeAtMost(s, EncodedLen(w, s));
  }

  /** From a new machine, within its charge, with two steps of the change counter left: the run is admitted and
      ends with success, its completion is refused, updates go on, and memory and file now say that it is
      uncertain while its only fact says that it runs. */
  lemma OneRefusedRun(now: Now) returns (states: seq<A.Sidecar>, actions: seq<A.Action>)
    ensures ProperlyRuns(Lengths(0), states, actions) && |actions| == 4 && states[0] == Start(MAX_U64 - 2)
    ensures Charge(Lengths(0), states[0].machine.mem) <= STATE_BYTES && Refused(Lengths(0), states[2], actions[2])
    ensures var m := states[4].machine;
      !m.poisoned && m.mem == m.disk && |m.mem.jobs| == 1 && !Agrees(m.mem, m.mem.jobs[0])
  {
    var reason := "no step left";
    states, actions := WholeRun(reason), WholeActions(now, reason);
    RunToLost(now, reason);
    RefusesThere(now, reason);
    LostDisagrees(MAX_U64, reason);
    NewStoreCharge(MAX_U64 - 2);
  }
}
