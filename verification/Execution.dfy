/** Grants, requests, admission and completion (src/grant.rs, src/request.rs, src/exec.rs) as edits
    of a store. */
module Execution {
  import opened Types
  import opened History
  import opened Names

  // ---- src/grant.rs

  function GrantIndex(grants: seq<Grant>, tool: string): (i: nat)
    ensures i <= |grants|
    ensures i < |grants| ==> grants[i].tool == tool
    ensures forall k :: 0 <= k < i ==> grants[k].tool != tool
  {
    if grants == [] then 0 else if grants[0].tool == tool then 0 else 1 + GrantIndex(grants[1..], tool)
  }

  /** The clock as `check_at` sees it: seconds for `until`, the local minute for a schedule. */
  datatype Now = Now(seconds: nat, slot: nat)

  function CheckAt(s: Store, tool: string, from: string, now: Now): Result<Grant> {
    var i := GrantIndex(s.grants, tool);
    if i == |s.grants| then Err(NotAdded) else
    var g := s.grants[i];
    if g.reservation.Some? then Err(GrantBusy)
    else if g.allowFrom.Some? && from !in g.allowFrom.value then Err(NotAllowed)
    else if g.until.Some? && g.until.value < now.seconds then Err(Expired)
    else if g.window.Some? && now.slot !in g.window.value then Err(NotAddedAtTime)
    else Ok(g)
  }

  predicate ArgsAllowed(g: Grant, argv: seq<string>)
    requires argv != []
  {
    g.args.Some? ==> argv[1..] in g.args.value
  }

  function CheckRun(s: Store, from: string, argv: seq<string>, now: Now): Result<Grant>
    requires argv != []
  {
    var g :- CheckAt(s, argv[0], from, now);
    if ArgsAllowed(g, argv) then Ok(g) else Err(Usage)
  }

  /** The grant lets this caller run this command now. */
  predicate Covers(g: Grant, from: string, argv: seq<string>, now: Now)
    requires argv != []
  {
    && g.tool == argv[0] && g.reservation.None? && ArgsAllowed(g, argv)
    && (g.allowFrom.Some? ==> from in g.allowFrom.value)
    && (g.until.Some? ==> now.seconds <= g.until.value)
    && (g.window.Some? ==> now.slot in g.window.value)
  }

  ghost predicate OneGrantPerTool(grants: seq<Grant>) {
    forall i, j :: 0 <= i < j < |grants| ==> grants[i].tool != grants[j].tool
  }

  /** A command passes exactly when some grant covers it, and then under that grant. */
  lemma CheckedIffCovered(s: Store, from: string, argv: seq<string>, now: Now)
    requires argv != [] && OneGrantPerTool(s.grants)
    ensures CheckRun(s, from, argv, now).Ok? <==> exists g :: g in s.grants && Covers(g, from, argv, now)
    ensures var r := CheckRun(s, from, argv, now); r.Ok? ==> r.value in s.grants && Covers(r.value, from, argv, now)
  {
    var i := GrantIndex(s.grants, argv[0]);
    if g :| g in s.grants && Covers(g, from, argv, now) {
      var k :| 0 <= k < |s.grants| && s.grants[k] == g;
      assert k == i;
    }
    if CheckRun(s, from, argv, now).Ok? {
      assert Covers(s.grants[i], from, argv, now);
    }
  }

  predicate SamePermission(a: Grant, b: Grant) {
    a.(reservation := None, instance := 0) == b.(reservation := None, instance := 0)
  }

  function Retain<T>(rows: seq<T>, keep: T -> bool): seq<T> {
    if rows == [] then [] else (if keep(rows[0]) then [rows[0]] else []) + Retain(rows[1..], keep)
  }

  function InvalidateRequests(requests: seq<Request>, key: string): seq<Request> {
    Retain(requests, (r: Request) => FileName(r.tool) != key)
  }

  function CommitGrant(s: Store, g: Grant): Store {
    s.(grants := Retain(s.grants, (x: Grant) => x.tool != g.tool) + [g],
       requests := InvalidateRequests(s.requests, g.tool))
  }

  lemma {:induction false} RetainedTools(grants: seq<Grant>, tool: string)
    requires OneGrantPerTool(grants)
    ensures var kept := Retain(grants, (x: Grant) => x.tool != tool);
      OneGrantPerTool(kept) && forall g :: g in kept <==> g in grants && g.tool != tool
  {
    if grants != [] {
      RetainedTools(grants[1..], tool);
      assert forall g :: g in grants[1..] ==> g.tool != grants[0].tool;
      assert grants == [grants[0]] + grants[1..];
    }
  }

  /** An owner's decision replaces what was granted for its tool and leaves the other tools alone. */
  lemma CommitGrantReplaces(s: Store, g: Grant)
    requires OneGrantPerTool(s.grants)
    ensures OneGrantPerTool(CommitGrant(s, g).grants)
    ensures forall x :: x in CommitGrant(s, g).grants <==> x == g || (x in s.grants && x.tool != g.tool)
  {
    RetainedTools(s.grants, g.tool);
  }

  /** The removal target is an absolute path of the granted binary or the grant's tool name. */
  predicate IsRemovalTarget(g: Grant, target: string) {
    if target != "" && target[0] == '/' then g.binary == target else g.tool == target
  }

  function RemovalIndex(grants: seq<Grant>, target: string): (i: nat)
    ensures i <= |grants|
  {
    if grants == [] then 0 else if IsRemovalTarget(grants[0], target) then 0 else 1 + RemovalIndex(grants[1..], target)
  }

  function RemoveGrant(s: Store, target: string): Result<Store> {
    var i := RemovalIndex(s.grants, target);
    if i == |s.grants| then Err(NotAdded) else
    Ok(s.(grants := s.grants[..i] + s.grants[i + 1..], requests := InvalidateRequests(s.requests, s.grants[i].tool)))
  }

  lemma {:induction false} RemainingRequests(requests: seq<Request>, key: string)
    ensures forall r :: r in InvalidateRequests(requests, key) <==> r in requests && FileName(r.tool) != key
  {
    if requests != [] {
      RemainingRequests(requests[1..], key);
      assert requests == [requests[0]] + requests[1..];
    }
  }

  lemma {:induction false} RemovalIndexIs(grants: seq<Grant>, target: string)
    ensures var i := RemovalIndex(grants, target);
      && (forall k :: 0 <= k < i ==> !IsRemovalTarget(grants[k], target))
      && (i < |grants| ==> IsRemovalTarget(grants[i], target))
  {
    if grants != [] {
      RemovalIndexIs(grants[1..], target);
    }
  }

  /** A removal succeeds exactly when some grant is meant. It takes that grant, no other, and with it every
      pending request for its tool; nothing else changes. */
  lemma RemovalTakesOne(s: Store, target: string) returns (g: Grant)
    requires OneGrantPerTool(s.grants)
    ensures RemoveGrant(s, target).Ok? <==> exists x :: x in s.grants && IsRemovalTarget(x, target)
    ensures RemoveGrant(s, target).Ok? ==>
      var t := RemoveGrant(s, target).value;
      && g in s.grants && IsRemovalTarget(g, target)
      && (forall x :: x in t.grants <==> x in s.grants && x != g)
      && (forall x :: x in t.grants ==> x.tool != g.tool)
      && (forall r :: r in t.requests <==> r in s.requests && FileName(r.tool) != g.tool)
      && t == s.(grants := t.grants, requests := t.requests)
  {
    var i := RemovalIndex(s.grants, target);
    RemovalIndexIs(s.grants, target);
    if i < |s.grants| {
      g := s.grants[i];
      RemainingRequests(s.requests, g.tool);
      forall x | x in s.grants && x != g ensures x in s.grants[..i] + s.grants[i + 1..] {
        var k :| 0 <= k < |s.grants| && s.grants[k] == x;
        assert (s.grants[..i] + s.grants[i + 1..])[if k < i then k else k - 1] == x;
      }
    } else {
      g := *;
    }
  }

  // ---- src/request.rs

  function LastRequest(requests: seq<Request>, from: string, tool: string): Option<Request> {
    if requests == [] then None else
    var last := requests[|requests| - 1];
    if last.from == from && last.tool == tool then Some(last)
    else LastRequest(requests[..|requests| - 1], from, tool)
  }

  function Upsert(s: Store, from: string, tool: string, freshId: string): Store {
    if LastRequest(s.requests, from, tool).Some? then s
    else s.(requests := s.requests + [Request(freshId, from, tool)])
  }

  function RequestIndex(requests: seq<Request>, id: string): (i: nat)
    ensures i <= |requests|
  {
    if requests == [] then 0 else if requests[0].id == id then 0 else 1 + RequestIndex(requests[1..], id)
  }

  datatype Decision = Allow(grant: Grant) | Deny

  /** `decide`; `grant` is the prospective grant that `build` made from the request and the scope. */
  function Decide(s: Store, id: string, d: Decision): Result<Store> {
    var i := RequestIndex(s.requests, id);
    if i == |s.requests| || id == "" then Err(Usage) else
    match d
    case Deny => Ok(s.(requests := s.requests[..i] + s.requests[i + 1..]))
    case Allow(g) =>
      var j := GrantIndex(s.grants, g.tool);
      if j < |s.grants| && !SamePermission(s.grants[j], g) then Err(Usage) else Ok(CommitGrant(s, g))
  }

  predicate IsPending(requests: seq<Request>, id: string) {
    exists r :: r in requests && r.id == id
  }

  lemma {:induction false} RequestIndexIs(requests: seq<Request>, id: string)
    ensures var i := RequestIndex(requests, id);
      (i < |requests| <==> IsPending(requests, id)) && (i < |requests| ==> requests[i].id == id)
  {
    if requests != [] {
      RequestIndexIs(requests[1..], id);
      assert requests == [requests[0]] + requests[1..];
    }
  }

  /** An approval succeeds exactly when its request is pending and no different permission for the tool is
      granted. It leaves that permission, no other for the tool, and no pending request for it. */
  lemma ApprovalIff(s: Store, id: string, g: Grant)
    requires OneGrantPerTool(s.grants)
    ensures Decide(s, id, Allow(g)).Ok? <==>
      id != "" && IsPending(s.requests, id) && forall x :: x in s.grants && x.tool == g.tool ==> SamePermission(x, g)
    ensures Decide(s, id, Allow(g)).Ok? ==>
      var t := Decide(s, id, Allow(g)).value;
      && (forall x :: x in t.grants <==> x == g || (x in s.grants && x.tool != g.tool))
      && (forall r :: r in t.requests <==> r in s.requests && FileName(r.tool) != g.tool)
      && t == s.(grants := t.grants, requests := t.requests)
  {
    RequestIndexIs(s.requests, id);
    CommitGrantReplaces(s, g);
    RemainingRequests(s.requests, g.tool);
    GrantIndexIs(s.grants, g.tool);
  }

  lemma GrantIndexIs(grants: seq<Grant>, tool: string)
    requires OneGrantPerTool(grants)
    ensures var j := GrantIndex(grants, tool);
      (j < |grants| ==> grants[j] in grants)
      && forall x :: x in grants && x.tool == tool ==> j < |grants| && x == grants[j]
  {
    var j := GrantIndex(grants, tool);
    forall x | x in grants && x.tool == tool ensures j < |grants| && x == grants[j] {
      var k :| 0 <= k < |grants| && grants[k] == x;
    }
  }

  /** A refusal succeeds exactly when its request is pending; it takes that request and touches no grant. */
  lemma RefusalIff(s: Store, id: string)
    ensures Decide(s, id, Deny).Ok? <==> id != "" && IsPending(s.requests, id)
    ensures Decide(s, id, Deny).Ok? ==>
      var t := Decide(s, id, Deny).value;
      && (forall r :: r in t.requests ==> r in s.requests)
      && (forall r :: r in s.requests && r.id != id ==> r in t.requests)
      && |t.requests| == |s.requests| - 1 && t == s.(requests := t.requests)
  {
    RequestIndexIs(s.requests, id);
    var i := RequestIndex(s.requests, id);
    if i < |s.requests| {
      forall r | r in s.requests && r.id != id ensures r in s.requests[..i] + s.requests[i + 1..] {
        var k :| 0 <= k < |s.requests| && s.requests[k] == r;
        assert (s.requests[..i] + s.requests[i + 1..])[if k < i then k else k - 1] == r;
      }
    }
  }

  // ---- src/exec.rs

  function ErrorText(e: Error): string {
    match e
    case NotAdded => "not added" case GrantBusy => "busy" case NotAllowed => "not allowed"
    case Expired => "expired" case NotAddedAtTime => "not added at this time" case _ => "arguments not granted"
  }

  predicate AsksOwner(e: Error) {
    e.NotAdded? || e.NotAllowed? || e.Expired? || e.NotAddedAtTime?
  }

  datatype Call = Call(id: string, from: string, argv: seq<string>, certificate: Option<Certificate>)

  predicate QueuedHere(s: Store, j: Job) {
    j.from == s.name && (j.status.Queued? || j.status.WaitingCapacity?)
  }

  /** The checks before the update: a known ID is answered from its row, unless it is this machine's
      own queued work. */
  function Gate(s: Store, c: Call): Result<Option<Job>> {
    if !ValidCommand(c.id, c.argv) then Err(Usage)
    else if c.certificate.Some? && !(ValidInvocation(s, c.certificate.value)
                                     && c.certificate.value.invocation.body == s.name) then Err(Protocol)
    else
      var i := JobIndex(s.jobs, c.id);
      if i == |s.jobs| then Ok(None) else
      var j := s.jobs[i];
      if j.from != c.from || j.body != s.name || j.argv != c.argv then Err(Protocol)
      else if c.certificate.Some? && (c.id !in s.certs || s.certs[c.id] != c.certificate.value.invocation)
      then Err(Protocol)
      else if QueuedHere(s, j) then Ok(None)
      else Ok(Some(j))
  }

  function Reserve(grants: seq<Grant>, g: Grant, id: string): seq<Grant> {
    var i := GrantIndex(grants, g.tool);
    if g.once && i < |grants| then grants[i := grants[i].(reservation := Some(id))] else grants
  }

  function PutJob(jobs: seq<Job>, j: Job): seq<Job> {
    var i := JobIndex(jobs, j.id);
    if i < |jobs| then jobs[i := j] else jobs + [j]
  }

  /** What `submit` may start after its update commits. */
  datatype Accepted = Accepted(store: Store, run: Option<Grant>)

  function NewRow(s: Store, c: Call, status: Status): Job {
    Job(c.id, c.from, s.name, c.argv, status, [], [])
  }

  function Bound(s: Store, c: Call): Result<Store> {
    if c.certificate.Some? then BindAdmission(s, c.certificate.value) else Ok(s)
  }

  function SubmitEdit(s: Store, c: Call, now: Now, permit: bool, freshId: string): Result<Accepted>
    requires c.argv != []
  {
    var t :- Bound(s, c);
    Admit(t, c, now, permit, freshId)
  }

  /** The row is running and its once-grant reserved, or denied with a request for the owner. */
  function Admit(t: Store, c: Call, now: Now, permit: bool, freshId: string): Result<Accepted>
    requires c.argv != []
  {
    match CheckRun(t, c.from, c.argv, now)
    case Ok(g) =>
      if !permit then Err(Capacity) else
      Ok(Accepted(t.(grants := Reserve(t.grants, g, c.id), jobs := PutJob(t.jobs, NewRow(t, c, Running))), Some(g)))
    case Err(e) =>
      var u := if AsksOwner(e) then Upsert(t, c.from, c.argv[0], freshId) else t;
      Ok(Accepted(u.(jobs := PutJob(u.jobs, NewRow(u, c, Denied(ErrorText(e))))), None))
  }

  datatype Outcome =
    | Exited(exit: int, stdout: seq<byte>, stderr: seq<byte>, captureError: Option<string>)
    | NotStarted(reason: string)
    | Unknown(reason: string)

  function Success(o: Outcome): Option<bool> {
    match o
    case Exited(exit, _, _, _) => Some(exit == 0)
    case NotStarted(_) => Some(false)
    case Unknown(_) => None
  }

  function Finished(run: Job, o: Outcome): Job {
    match o
    case Exited(exit, out, err, None) => run.(status := Done(exit), stdout := out, stderr := err)
    case Exited(_, out, err, Some(reason)) => run.(status := Failed(reason), stdout := out, stderr := err)
    case NotStarted(reason) => run.(status := Failed(reason))
    case Unknown(reason) => run.(status := Uncertain(reason))
  }

  function ReservedIndex(grants: seq<Grant>, tool: string, id: string): (i: nat)
    ensures i <= |grants|
    ensures i < |grants| ==> grants[i].tool == tool && grants[i].reservation == Some(id)
  {
    if grants == [] then 0
    else if grants[0].tool == tool && grants[0].reservation == Some(id) then 0
    else 1 + ReservedIndex(grants[1..], tool, id)
  }

  /** A once-grant still reserved by this run is consumed by success and released by failure. */
  function Release(grants: seq<Grant>, g: Grant, id: string, success: Option<bool>): seq<Grant> {
    var i := ReservedIndex(grants, g.tool, id);
    if !g.once || i == |grants| || success.None? then grants
    else if success.value then grants[..i] + grants[i + 1..]
    else grants[i := grants[i].(reservation := None)]
  }

  function FinishEdit(s: Store, g: Grant, run: Job, o: Outcome): Result<Store> {
    var i := JobIndex(s.jobs, run.id);
    if i == |s.jobs| then Err(Protocol) else
    Ok(s.(grants := Release(s.grants, g, run.id, Success(o)), jobs := s.jobs[i := Finished(run, o)]))
  }

  /** The status says how the run ended: with its exit code exactly when the process exited and its output was
      captured whole, and otherwise why there is none. */
  predicate TellsEnd(status: Status, o: Outcome) {
    && (status.Done? <==> o.Exited? && o.captureError.None?)
    && (status.Done? ==> status.exit == o.exit)
    && (o.Exited? && o.captureError.Some? ==> status == Failed(o.captureError.value))
    && (o.NotStarted? ==> status == Failed(o.reason))
    && (o.Unknown? ==> status == Uncertain(o.reason))
  }

  /** What the end of a run leaves: its row tells the outcome and, after an exit, holds the two streams that were
      captured; nothing else of the row changes, and no other row does. */
  lemma FinishTells(s: Store, g: Grant, run: Job, o: Outcome, t: Store)
    requires FinishEdit(s, g, run, o) == Ok(t)
    ensures t == s.(grants := t.grants, jobs := t.jobs) && |t.jobs| == |s.jobs|
    ensures var i := JobIndex(s.jobs, run.id);
      && i < |s.jobs| && (forall k :: 0 <= k < |s.jobs| && k != i ==> t.jobs[k] == s.jobs[k])
      && var row := t.jobs[i];
         && FindJob(t.jobs, run.id) == Some(row)
         && row.id == run.id && row.from == run.from && row.body == run.body && row.argv == run.argv
         && TellsEnd(row.status, o)
         && row.stdout == (if o.Exited? then o.stdout else run.stdout)
         && row.stderr == (if o.Exited? then o.stderr else run.stderr)
  {
    var i := JobIndex(s.jobs, run.id);
    IndexIsFirst(t.jobs, run.id, i);
  }

  lemma {:induction false} IndexIsFirst(jobs: seq<Job>, id: string, i: nat)
    requires i < |jobs| && jobs[i].id == id && forall k :: 0 <= k < i ==> jobs[k].id != id
    ensures JobIndex(jobs, id) == i
  {
    if i > 0 {
      IndexIsFirst(jobs[1..], id, i - 1);
    }
  }

  // ---- src/store.rs, src/job.rs

  function RecoverRows(jobs: seq<Job>, name: string): (r: seq<Job>)
    ensures |r| == |jobs|
  {
    if jobs == [] then [] else
    [if jobs[0].body == name && jobs[0].status.Running? then jobs[0].(status := Uncertain("restarted")) else jobs[0]]
    + RecoverRows(jobs[1..], name)
  }

  /** The row written when a queued local submission was refused (src/job.rs, `dispatch_pending`). */
  function RefuseLocal(s: Store, id: string, e: Error): Result<Store> {
    var i := JobIndex(s.jobs, id);
    if i == |s.jobs| then Err(Protocol)
    else if !(s.jobs[i].status.Queued? || s.jobs[i].status.WaitingCapacity?) then Ok(s)
    else
      var status := if e.Capacity? then WaitingCapacity else Failed(ErrorText(e));
      Ok(s.(jobs := s.jobs[i := s.jobs[i].(status := status)]))
  }
}
