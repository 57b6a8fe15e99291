/** The store as the program holds it: one object whose operations change its fields in place, each
    proved to compute the function that the other modules reason about. */
module Live {
  import opened Types
  import opened History
  import opened Advance
  import opened Sums
  import opened Encoding
  import opened Storage
  import opened Execution
  import U = Update
  import Edits
  import Saves
  import Admission
  import Scan

  class LiveStore {
    const name: string
    const key: PublicKey
    var peers: seq<Peer>
    var grants: seq<Grant>
    var jobs: seq<Job>
    var requests: seq<Request>
    const epoch: string
    var clock: nat
    var trust: set<(string, PublicKey)>
    var entries: map<Invocation, Entry>
    var progress: map<string, Progress>
    var retryLinks: map<string, string>
    var certs: map<string, Invocation>
    var outputPruned: set<string>
    var historyPruned: set<Invocation>

    function Value(): Store
      reads this
    {
      Store(name, key, peers, grants, jobs, requests, epoch, clock, trust, entries, progress, retryLinks, certs,
            outputPruned, historyPruned)
    }

    /** `clone`. */
    constructor (s: Store)
      ensures Value() == s
    {
      name, key, peers, grants, jobs, requests := s.name, s.key, s.peers, s.grants, s.jobs, s.requests;
      epoch, clock, trust, entries, progress := s.epoch, s.clock, s.trust, s.entries, s.progress;
      retryLinks, certs, outputPruned, historyPruned := s.retryLinks, s.certs, s.outputPruned, s.historyPruned;
    }

    // ---- src/history.rs

    method AdvanceClock() returns (r: Result<()>)
      modifies this`clock
      ensures r.Ok? <==> old(clock) < MAX_U64
      ensures r.Ok? ==> NextChange(old(Value())) == Ok(Value())
      ensures r.Err? ==> r.error == Protocol && Value() == old(Value())
    {
      if clock >= MAX_U64 {
        return Err(Protocol);
      }
      clock := clock + 1;
      return Ok(());
    }

    /** Learns one published record, or fails as the specification does. */
    method Learn(p: Published) returns (r: Result<()>)
      modifies this
      ensures match r
              case Ok(_) => Ingest(old(Value()), p) == Ok(Value())
              case Err(e) => Ingest(old(Value()), p) == Err(e)
    {
      if !ValidPublished(Value(), p) {
        return Err(Protocol);
      }
      var k := p.record.certificate.invocation;
      var before := EntryOrNew(Value(), p.record.certificate);
      var merged := MergeRecord(before.record, p.record);
      if merged.Err? {
        return Err(merged.error);
      }
      var output := MergeOutput(Value(), k, merged.value, before.output, p.output);
      if k !in entries || merged.value != before.record
         || (output != before.output && !HeldLocally(Value(), k, merged.value)) {
        r := AdvanceClock();
        if r.Err? {
          return;
        }
        entries := entries[k := Entry(merged.value, clock, output)];
      }
      return Ok(());
    }

    method Bind(c: Certificate) returns (r: Result<()>)
      modifies this
      ensures match r
              case Ok(_) => BindAdmission(old(Value()), c) == Ok(Value())
              case Err(e) => BindAdmission(old(Value()), c) == Err(e)
    {
      var k := c.invocation;
      if k.id in certs && certs[k.id] != k {
        return Err(Protocol);
      }
      if k.id !in certs && FindJob(jobs, k.id).Some? {
        return Err(Protocol);
      }
      if k !in entries {
        r := AdvanceClock();
        if r.Err? {
          return;
        }
        entries := entries[k := Entry(Record(c, None, None), clock, None)];
      }
      certs := certs[k.id := k];
      if k.retryOf.Some? {
        retryLinks := retryLinks[k.id := k.retryOf.value];
      }
      return Ok(());
    }

    method AcceptReply(peer: string, p: Published) returns (r: Result<()>)
      modifies this
      ensures match r
              case Ok(_) => AcceptRunnerReply(old(Value()), peer, p) == Ok(Value())
              case Err(e) => AcceptRunnerReply(old(Value()), peer, p) == Err(e)
    {
      if !ValidRecord(Value(), p.record) {
        return Err(Protocol);
      }
      var c := p.record.certificate;
      var k := c.invocation;
      if k.body != peer || p.record.runner.None? {
        return Err(Protocol);
      }
      var i := JobIndex(jobs, k.id);
      if i == |jobs| {
        return Ok(());
      }
      if k.id !in certs || certs[k.id] != k || !MatchesJob(c, jobs[i]) {
        return Err(Protocol);
      }
      ghost var s := Value();
      r := Learn(p);
      if r.Err? {
        return;
      }
      Edits.IngestFrame(s, p);
      if IsTerminal(jobs[i].status) {
        return;
      }
      assert outputPruned + {} == outputPruned;
      var fact := p.record.runner.value.fact;
      var retained := p.output.Some? && k !in historyPruned && k.id !in outputPruned;
      var o := if retained then p.output.value else Captured([], []);
      if !retained && (fact.stdout.bytes != 0 || fact.stderr.bytes != 0) {
        outputPruned := outputPruned + {k.id};
      }
      jobs := jobs[i := Job(k.id, k.from, k.body, k.argv, fact.status, o.stdout, o.stderr)];
    }

    /** Gives a new job of this machine its signed admission. */
    method CertifyJob(previous: seq<Job>, j: Job) returns (r: Result<()>)
      modifies this
      ensures match r
              case Ok(_) => Certify(old(Value()), previous, j) == Ok(Value())
              case Err(e) => Certify(old(Value()), previous, j) == Err(e)
      ensures jobs == old(jobs)
    {
      if j.id in certs {
        return Ok(());
      }
      if j.from != name || FindJob(previous, j.id).Some? {
        return Err(Legacy);
      }
      var c := CertificateFor(Value(), j);
      if c.Err? {
        return Err(c.error);
      }
      r := AdvanceClock();
      if r.Ok? {
        entries := entries[c.value.invocation := Entry(Record(c.value, None, None), clock, None)];
        certs := certs[j.id := c.value.invocation];
      }
    }

    /** Signs the next revision of this machine's fact about a job. */
    method Write(j: Job, role: Role, digests: (OutputRef, OutputRef)) returns (r: Result<()>)
      requires j.id in certs && certs[j.id] in entries
      modifies this
      ensures match r
              case Ok(_) => WriteFact(old(Value()), j, role, digests) == Ok(Value())
              case Err(e) => WriteFact(old(Value()), j, role, digests) == Err(e)
      ensures jobs == old(jobs)
    {
      var k := certs[j.id];
      var e := entries[k];
      var previous := FactIn(e.record, role);
      var revision := if previous.Some? then previous.value.fact.revision + 1 else 1;
      if revision > MAX_U64 {
        return Err(Protocol);
      }
      var f := Fact(k, role, revision, j.status, digests.0, digests.1);
      var record := WithFact(e.record, role, SignedFact(f, Signed(key, Statement(f))));
      var output := OutputAfterPublishing(Value(), j, record.Selected().value.fact, e.output);
      r := AdvanceClock();
      if r.Ok? {
        entries := entries[k := Entry(record, clock, output)];
      }
    }

    method PublishOne(previous: seq<Job>, j: Job) returns (r: Result<()>)
      modifies this
      ensures match r
              case Ok(_) => PublishJob(old(Value()), previous, j) == Ok(Value())
              case Err(e) => PublishJob(old(Value()), previous, j) == Err(e)
      ensures jobs == old(jobs)
    {
      if j.from != name && j.body != name {
        return Ok(());
      }
      r := CertifyJob(previous, j);
      if r.Err? {
        return;
      }
      if j.id !in certs || certs[j.id] !in entries {
        return Err(Protocol);
      }
      var record := entries[certs[j.id]].record;
      if !MatchesJob(record.certificate, j) {
        return Err(Protocol);
      }
      var role := OwnRole(name, j);
      if role.None? {
        return Ok(());
      }
      var written := FactIn(record, role.value);
      var digests := DigestsFor(Value(), j, role.value, written);
      if digests.Err? {
        return Err(digests.error);
      }
      if written.Some?
         && (SaysSame(written.value.fact, j.status, digests.value) || IsTerminal(written.value.fact.status)) {
        return Ok(());
      }
      r := Write(j, role.value, digests.value);
    }

    /** Publishes what changed since the previous state (`refresh_owned`). */
    method Refresh(previous: Store) returns (r: Result<()>)
      modifies this
      ensures match r
              case Ok(_) => RefreshOwned(old(Value()), previous) == Ok(Value())
              case Err(e) => RefreshOwned(old(Value()), previous) == Err(e)
    {
      var now := TrustOf(peers);
      if now != trust {
        progress, trust := map[], now;
      }
      ghost var s := Value();
      ghost var rows := jobs;
      var i := 0;
      assert jobs[0..] == jobs;
      while i < |jobs|
        invariant i <= |jobs| && jobs == rows
        invariant PublishJobs(Value(), previous.jobs, ChangedJobs(rows[i..], previous.jobs))
               == PublishJobs(s, previous.jobs, ChangedJobs(rows, previous.jobs))
      {
        var j := jobs[i];
        assert rows[i..][0] == j && rows[i..][1..] == rows[i + 1..];
        ghost var rest := ChangedJobs(rows[i + 1..], previous.jobs);
        assert ChangedJobs(rows[i..], previous.jobs) == if JobChanged(previous.jobs, j) then [j] + rest else [] + rest;
        assert [] + rest == rest;
        if JobChanged(previous.jobs, j) {
          ghost var at := Value();
          PublishJobsHead(at, previous.jobs, j, rest);
          r := PublishOne(previous.jobs, j);
          if r.Err? {
            return;
          }
        }
        i := i + 1;
      }
      assert ChangedJobs(rows[i..], previous.jobs) == [];
      return Ok(());
    }

    method Forget()
      modifies this`entries
      ensures Value() == ForgetPruned(old(Value()))
    {
      ghost var before := entries;
      var todo := entries.Keys;
      while todo != {}
        invariant todo <= entries.Keys == before.Keys
        invariant forall k :: k in todo ==> entries[k] == before[k]
        invariant forall k :: k in before && k !in todo ==>
          entries[k] == (if k in historyPruned then before[k].(output := None) else before[k])
        decreases |todo|
      {
        var k :| k in todo;
        if k in historyPruned {
          entries := entries[k := entries[k].(output := None)];
        }
        todo := todo - {k};
      }
      assert entries == ForgetPruned(old(Value())).entries;
    }

    /** Forgets pruned replicas, then drops pruned and doubled output row by row. */
    method Normalize()
      modifies this
      ensures Value() == NormalizeOutput(old(Value()))
    {
      Forget();
      var i := 0;
      while i < |jobs|
        invariant i <= |jobs| && NormalizeJobs(Value(), i) == NormalizeOutput(old(Value()))
        decreases |jobs| - i
      {
        ghost var n := |jobs|;
        NormalizeRow(i);
        i := i + 1;
      }
    }

    method NormalizeRow(i: nat)
      requires i < |jobs|
      modifies this
      ensures Value() == NormalizeJob(old(Value()), i) && |jobs| == |old(jobs)|
    {
      var j := jobs[i];
      if j.id !in certs || !BoundTo(Value(), j, certs[j.id]) {
        return;
      }
      var k := certs[j.id];
      var e := entries[k];
      if k in historyPruned {
        var selected := e.record.Selected();
        jobs := jobs[i := j.(stdout := [], stderr := [])];
        if selected.Some? && (selected.value.fact.stdout.bytes != 0 || selected.value.fact.stderr.bytes != 0) {
          outputPruned := outputPruned + {j.id};
        } else {
          assert outputPruned + {} == outputPruned;
        }
      } else if j.id !in outputPruned && e.output == Some(OutputOfJob(j)) {
        entries := entries[k := e.(output := None)];
      }
    }

    // ---- src/storage.rs

    method Clear(k: Invocation)
      modifies this
      ensures Value() == ClearJob(old(Value()), k)
    {
      var i := LocalIndex(Value(), k);
      if i < |jobs| {
        jobs := jobs[i := jobs[i].(stdout := [], stderr := [])];
        outputPruned := outputPruned + {k.id};
      }
    }

    /** Removes the payload of one candidate for good. */
    method Drop(k: Invocation) returns (r: Result<()>)
      requires k in entries
      modifies this
      ensures match r
              case Ok(_) => RemovePayload(old(Value()), k) == Ok(Value())
              case Err(e) => RemovePayload(old(Value()), k) == Err(e)
    {
      Clear(k);
      r := AdvanceClock();
      if r.Ok? {
        entries := entries[k := entries[k].(output := None, change := clock)];
        historyPruned := historyPruned + {k};
      }
    }

    method OutputTotal() returns (n: nat)
      ensures n == OutputBytes(Value())
    {
      var own := SumOfSeq(jobs, (j: Job) => JobBytes(j));
      var learned := SumOfSet(entries.Keys, AtEntry(entries, (e: Entry) => RetainedBytes(e.output)));
      return own + learned;
    }

    /** The candidates for removal, oldest first. */
    method ListCandidates() returns (list: seq<Invocation>)
      requires SoundEntries(clock, entries)
      ensures list == Candidates(Value())
    {
      list := SortByAge(clock, entries, CandidateKeys(Value()));
    }

    /** Removes the given payloads in order. */
    method DropAll(list: seq<Invocation>) returns (r: Result<()>)
      requires forall k :: k in list ==> k in entries
      modifies this
      ensures match r
              case Ok(_) => RemoveAll(old(Value()), list) == Ok(Value())
              case Err(e) => RemoveAll(old(Value()), list) == Err(e)
    {
      var i := 0;
      assert list[0..] == list;
      while i < |list|
        invariant i <= |list| && (forall k :: k in list ==> k in entries)
        invariant RemoveAll(Value(), list[i..]) == RemoveAll(old(Value()), list)
      {
        ghost var at := Value();
        assert list[i..][0] == list[i] && list[i..][1..] == list[i + 1..];
        r := Drop(list[i]);
        if r.Err? {
          return;
        }
        RemovalShape(at, list[i]);
        i := i + 1;
      }
      return Ok(());
    }

    /** `prune(keep)`. */
    method Prune(keep: nat) returns (r: Result<()>)
      requires SoundEntries(clock, entries)
      modifies this
      ensures match r
              case Ok(_) => Storage.Prune(old(Value()), keep) == Ok(Value())
              case Err(e) => Storage.Prune(old(Value()), keep) == Err(e)
    {
      var list := ListCandidates();
      var oldest := list[..if |list| > keep then |list| - keep else 0];
      assert oldest == OldestBut(Value(), keep);
      r := DropAll(oldest);
    }

    /** The eviction loop. */
    method EvictAll(list: seq<Invocation>) returns (r: Result<()>)
      requires forall k :: k in list ==> k in entries
      modifies this
      ensures match r
              case Ok(_) => EvictFrom(old(Value()), list) == Ok(Value())
              case Err(e) => EvictFrom(old(Value()), list) == Err(e)
    {
      var i := 0;
      assert list[0..] == list;
      var total := OutputTotal();
      while i < |list| && total > OUTPUT_BYTES
        invariant i <= |list| && (forall k :: k in list ==> k in entries) && total == OutputBytes(Value())
        invariant EvictFrom(Value(), list[i..]) == EvictFrom(old(Value()), list)
      {
        ghost var at := Value();
        assert list[i..][0] == list[i] && list[i..][1..] == list[i + 1..];
        r := Drop(list[i]);
        if r.Err? {
          return;
        }
        RemovalShape(at, list[i]);
        total := OutputTotal();
        i := i + 1;
      }
      return if total > OUTPUT_BYTES then Err(Capacity) else Ok(());
    }

    // ---- src/grant.rs, src/request.rs, src/exec.rs, as edits of a copy

    method Reserve(g: Grant, id: string)
      modifies this`grants
      ensures grants == Execution.Reserve(old(grants), g, id)
    {
      if g.once {
        var i := GrantIndex(grants, g.tool);
        if i < |grants| {
          grants := grants[i := grants[i].(reservation := Some(id))];
        }
      }
    }

    method PutRow(j: Job)
      modifies this`jobs
      ensures jobs == PutJob(old(jobs), j)
    {
      var i := JobIndex(jobs, j.id);
      if i < |jobs| {
        jobs := jobs[i := j];
      } else {
        jobs := jobs + [j];
      }
    }

    method AskOwner(from: string, tool: string, requestId: string)
      modifies this`requests
      ensures Value() == Upsert(old(Value()), from, tool, requestId)
    {
      if LastRequest(requests, from, tool).None? {
        requests := requests + [Request(requestId, from, tool)];
      }
    }

    /** The edit of `submit_inner`: binds the admission, then admits or denies the call. */
    method Accept(c: Call, now: Now, permit: bool, requestId: string) returns (r: Result<Option<Grant>>)
      requires c.argv != []
      modifies this
      ensures match r
              case Ok(run) => SubmitEdit(old(Value()), c, now, permit, requestId) == Ok(Accepted(Value(), run))
              case Err(e) => SubmitEdit(old(Value()), c, now, permit, requestId) == Err(e)
    {
      if c.certificate.Some? {
        var bound := Bind(c.certificate.value);
        if bound.Err? {
          return Err(bound.error);
        }
      }
      var granted := CheckRun(Value(), c.from, c.argv, now);
      if granted.Ok? {
        if !permit {
          return Err(Capacity);
        }
        Reserve(granted.value, c.id);
        PutRow(NewRow(Value(), c, Running));
        return Ok(Some(granted.value));
      }
      if AsksOwner(granted.error) {
        AskOwner(c.from, c.argv[0], requestId);
      }
      PutRow(NewRow(Value(), c, Denied(ErrorText(granted.error))));
      return Ok(None);
    }

    /** The edit of `finish`: settles the once-grant this run still holds, then the row. */
    method Settle(g: Grant, run: Job, o: Outcome) returns (r: Result<()>)
      modifies this
      ensures match r
              case Ok(_) => FinishEdit(old(Value()), g, run, o) == Ok(Value())
              case Err(e) => FinishEdit(old(Value()), g, run, o) == Err(e)
    {
      var success := Success(o);
      if g.once {
        var i := ReservedIndex(grants, g.tool, run.id);
        if i < |grants| && success.Some? {
          grants := if success.value then grants[..i] + grants[i + 1..]
                    else grants[i := grants[i].(reservation := None)];
        }
      }
      var i := JobIndex(jobs, run.id);
      if i == |jobs| {
        return Err(Protocol);
      }
      jobs := jobs[i := Finished(run, o)];
      return Ok(());
    }

    /** `recover_jobs`: runs the last process did not finish. */
    method Recover()
      modifies this`jobs
      ensures jobs == RecoverRows(old(jobs), name)
    {
      ghost var before := jobs;
      var i := 0;
      while i < |jobs|
        invariant i <= |jobs| == |before| && jobs[i..] == before[i..]
        invariant forall m :: 0 <= m < i ==> jobs[m] == RecoverRows(before, name)[m]
      {
        Edits.RecoveredRows(before, name, i);
        assert jobs[i] == jobs[i..][0] == before[i];
        if jobs[i].body == name && jobs[i].status.Running? {
          jobs := jobs[i := jobs[i].(status := Uncertain("restarted"))];
        }
        assert before[i + 1..] == before[i..][1..];
        i := i + 1;
      }
    }

    /** The rewrite of a row in memory after its completion could not be saved. */
    method Mark(id: string, reason: string)
      modifies this`jobs
      ensures Value() == Admission.MarkRow(old(Value()), id, reason)
    {
      var i := JobIndex(jobs, id);
      if i < |jobs| {
        jobs := jobs[i := jobs[i].(status := Uncertain(reason))];
      }
    }

    /** `commit`: an owner's decision replaces the tool's grant and answers its requests. */
    method AddGrant(g: Grant)
      modifies this
      ensures Value() == CommitGrant(old(Value()), g)
    {
      grants := Retain(grants, (x: Grant) => x.tool != g.tool) + [g];
      requests := InvalidateRequests(requests, g.tool);
    }

    method TakeGrant(target: string) returns (r: Result<()>)
      modifies this
      ensures match r
              case Ok(_) => RemoveGrant(old(Value()), target) == Ok(Value())
              case Err(e) => RemoveGrant(old(Value()), target) == Err(e)
    {
      var i := RemovalIndex(grants, target);
      if i == |grants| {
        return Err(NotAdded);
      }
      var tool := grants[i].tool;
      grants := grants[..i] + grants[i + 1..];
      requests := InvalidateRequests(requests, tool);
      return Ok(());
    }

    method Answer(id: string, d: Decision) returns (r: Result<()>)
      modifies this
      ensures match r
              case Ok(_) => Decide(old(Value()), id, d) == Ok(Value())
              case Err(e) => Decide(old(Value()), id, d) == Err(e)
    {
      var i := RequestIndex(requests, id);
      if i == |requests| || id == "" {
        return Err(Usage);
      }
      match d {
        case Deny =>
          requests := requests[..i] + requests[i + 1..];
        case Allow(g) =>
          var j := GrantIndex(grants, g.tool);
          if j < |grants| && !SamePermission(grants[j], g) {
            return Err(Usage);
          }
          AddGrant(g);
      }
      return Ok(());
    }

    // ---- Pages

    /** Applies a page a neighbour served (`sync_peer`). */
    method LearnFrom(peer: string, asked: Progress, page: Page) returns (r: Result<()>)
      modifies this
      ensures match r
              case Ok(_) => LearnPage(old(Value()), peer, asked, page) == Ok(Value())
              case Err(e) => LearnPage(old(Value()), peer, asked, page) == Err(e)
    {
      var unknown := !page.reset && asked.unknown;
      ghost var first := unknown;
      var i := 0;
      assert page.entries[0..] == page.entries;
      while i < |page.entries|
        invariant i <= |page.entries|
        invariant LearnAll(Value(), page.entries[i..], unknown) == LearnAll(old(Value()), page.entries, first)
      {
        var p := page.entries[i];
        assert page.entries[i..][0] == p && page.entries[i..][1..] == page.entries[i + 1..];
        if AuthorsKnown(Value(), p.record.certificate) {
          r := Learn(p);
          if r.Err? {
            return;
          }
        } else {
          unknown := true;
        }
        i := i + 1;
      }
      progress := progress[peer := Progress(page.epoch, page.next, page.high, page.complete, unknown)];
      return Ok(());
    }

    /** Serves a page (`page`): the oldest entries past the cursor, by count and by size. */
    method Serve(size: Scan.Sizes, asked: string, after: nat, high: Option<nat>) returns (r: Result<Page>)
      requires SoundEntries(clock, entries)
      ensures r == Scan.MakePage(Value(), size, asked, after, high)
    {
      var reset := asked != epoch || after > clock;
      var start := if reset then 0 else after;
      var top := if reset || high.None? || high.value > clock then clock else high.value;
      if top < start {
        return Err(Protocol);
      }
      var list := SortByAge(clock, entries, Scan.InRange(Value(), start, top));
      var filled := FillPage(size, list, start);
      if filled.Err? {
        return Err(filled.error);
      }
      var complete := |filled.value.rows| == |list|;
      return Ok(Page(epoch, reset, top, if complete then top else filled.value.next, complete, filled.value.rows));
    }

    method FillPage(size: Scan.Sizes, list: seq<Invocation>, start: nat) returns (r: Result<Scan.Filled>)
      requires forall k :: k in list ==> k in entries
      ensures r == Scan.Fill(Value(), size, list, 0, Scan.Filled([], start))
    {
      var rows: seq<Published>, used: nat, next: nat, i: nat := [], 0, start, 0;
      assert list[0..] == list;
      while i < |list|
        invariant i <= |list|
        invariant Scan.Fill(Value(), size, list[i..], used, Scan.Filled(rows, next))
               == Scan.Fill(Value(), size, list, 0, Scan.Filled([], start))
      {
        assert list[i..][0] == list[i] && list[i..][1..] == list[i + 1..];
        var p := Export(Value(), list[i]);
        if size(p) > Scan.PAGE_BYTES {
          return Err(Protocol);
        }
        if |rows| == PAGE_ROWS || used + size(p) > Scan.PAGE_BYTES {
          return Ok(Scan.Filled(rows, next));
        }
        rows, used, next, i := rows + [p], used + size(p), p.change, i + 1;
      }
      return Ok(Scan.Filled(rows, next));
    }

    /** The length of the saved text, summed up row by row. */
    method EncodedBytes(w: Widths) returns (n: nat)
      ensures n == EncodedLen(w, Value())
    {
      var grantText := SumOfSeq(grants, GrantRow(w));
      var jobText := SumOfSeq(jobs, (j: Job) => JobRow(j));
      var entryText := SumOfSet(entries.Keys, AtEntry(entries, (e: Entry) => EntryRow(w, e)));
      var receipts := SumOfSet(outputPruned, (t: string) => Quoted(t));
      var payload := PayloadBytes();
      n := w.other(OtherOf(Value())) + Digits(clock)
           + 2 + grantText + Commas(|grants|) + 2 + jobText + Commas(|jobs|) + 2 + entryText + Commas(|entries|)
           + (2 + receipts + Commas(|outputPruned|)) + (2 + HASH_LEN * |historyPruned| + Commas(|historyPruned|))
           + payload;
    }

    method PayloadBytes() returns (n: nat)
      ensures n == PayloadLen(Value())
    {
      var own := SumOfSeq(jobs, (j: Job) => JobPayload(j));
      var learned := SumOfSet(entries.Keys, AtEntry(entries, (e: Entry) => OutputLen(e.output)));
      return own + learned;
    }

    /** `completion_charge`. */
    method ChargeFor(encoded: nat) returns (n: nat)
      ensures n == CompletionCharge(Value(), encoded)
    {
      var payload := PayloadBytes();
      var metadata := if encoded < payload then 0 else encoded - payload;
      var jobReceipts := SumOfSeq(jobs, JobReceipt(outputPruned));
      var keyReceipts := SumOfSet(entries.Keys, KeyReceipt(historyPruned));
      var rooms := SumOfSet(entries.Keys, AtEntry(entries, (e: Entry) => Headroom(e.change)));
      var waiting := SumOfSeq(jobs, (j: Job) => Pending(j));
      n := metadata + (jobReceipts + keyReceipts) + (Headroom(clock) + rooms) + OUTPUT_BYTES * 4
           + waiting * COMPLETION_RESERVE;
    }

    /** `prepare`: the count limits, then eviction until the output fits its budget. */
    method PrepareSave(previous: Store) returns (r: Result<()>)
      requires SoundEntries(clock, entries)
      modifies this
      ensures match r
              case Ok(_) => Prepare(old(Value()), previous) == Ok(Value())
              case Err(e) => Prepare(old(Value()), previous) == Err(e)
    {
      if !WithinCounts(Value(), previous) {
        return Err(Capacity);
      }
      var list := ListCandidates();
      r := EvictAll(list);
    }
  }

  /** The oldest of some entries. */
  method Oldest(entries: Entries, keys: set<Invocation>) returns (k: Invocation)
    requires keys != {} && keys <= entries.Keys
    ensures IsLeast(entries, keys, k)
  {
    k :| k in keys;
    var todo := keys - {k};
    while todo != {}
      invariant todo <= keys && k in keys && forall l :: l in keys - todo ==> entries[k].change <= entries[l].change
      decreases |todo|
    {
      var l :| l in todo;
      if entries[l].change < entries[k].change {
        k := l;
      }
      todo := todo - {l};
    }
  }

  method SortByAge(clock: nat, entries: Entries, keys: set<Invocation>) returns (list: seq<Invocation>)
    requires SoundEntries(clock, entries) && keys <= entries.Keys
    ensures list == ByAge(entries, keys)
  {
    list := [];
    var todo := keys;
    while todo != {}
      invariant todo <= keys
      invariant ByAge(entries, keys) == list + ByAge(entries, todo)
      decreases |todo|
    {
      var k := Oldest(entries, todo);
      ghost var rest := ByAge(entries, todo - {k});
      OldestFirst(clock, entries, todo, k);
      Regroup(list, k, rest);
      list, todo := list + [k], todo - {k};
    }
    NoneByAge(entries, todo);
  }

  method SumOfSeq<T>(s: seq<T>, f: T -> nat) returns (n: nat)
    ensures n == SumSeq(s, f)
  {
    n := 0;
    assert s[0..] == s;
    for i := 0 to |s|
      invariant n + SumSeq(s[i..], f) == SumSeq(s, f)
    {
      assert s[i..][0] == s[i] && s[i..][1..] == s[i + 1..];
      n := n + f(s[i]);
    }
  }

  method SumOfSet<K>(s: set<K>, f: K -> nat) returns (n: nat)
    ensures n == Sum(s, f)
  {
    n := 0;
    var todo := s;
    while todo != {}
      invariant todo <= s && n + Sum(todo, f) == Sum(s, f)
      decreases |todo|
    {
      var k :| k in todo;
      SumTake(todo, f, k);
      n := n + f(k);
      todo := todo - {k};
    }
  }

  lemma Regroup<T>(list: seq<T>, x: T, rest: seq<T>)
    ensures list + ([x] + rest) == (list + [x]) + rest
  {
  }

  lemma NoneByAge(entries: Entries, keys: set<Invocation>)
    requires keys == {}
    ensures ByAge(entries, keys) == []
  {
    assert |ByAge(entries, keys)| == |keys|;
  }

  /** With every age different there is one list by age. */
  lemma OldestFirst(clock: nat, entries: Entries, keys: set<Invocation>, k: Invocation)
    requires SoundEntries(clock, entries) && keys != {} && keys <= entries.Keys && IsLeast(entries, keys, k)
    ensures ByAge(entries, keys) == [k] + ByAge(entries, keys - {k})
  {
    LeastExists(entries, keys);
    assert forall l :: IsLeast(entries, keys, l) ==> l == k by {
      forall l | IsLeast(entries, keys, l) ensures l == k {
        assert entries[l].change == entries[k].change;
      }
    }
  }

  lemma PublishJobsHead(s: Store, previous: seq<Job>, j: Job, rest: seq<Job>)
    ensures PublishJobs(s, previous, [j] + rest)
         == var p := PublishJob(s, previous, j); if p.Ok? then PublishJobs(p.value, previous, rest) else p
  {
    assert ([j] + rest)[0] == j && ([j] + rest)[1..] == rest;
  }

  // ---- src/store.rs

  /** The sidecar's store, its file, and the reason updates are refused for, if any. */
  class Process {
    var store: LiveStore
    var file: Store
    var stopped: bool

    function State(): Saves.Machine
      reads this, store
    {
      Saves.Machine(store.Value(), file, stopped)
    }

    constructor (s: Store)
      ensures State() == Saves.Machine(s, s, false) && fresh(store)
    {
      var first := new LiveStore(s);
      store, file, stopped := first, s, false;
    }

    /** `update`, after the caller's edit of a copy of the store: publish, normalize, evict, charge,
        save, and only then take the copy. Whatever is refused changes neither store nor file. */
    method Update(draft: LiveStore, edited: Result<()>, w: Widths, save: Saves.Save) returns (r: Result<()>)
      requires draft != store && U.GoodStore(store.Value())
      requires edited.Ok? ==> U.GoodEdit(store.Value(), draft.Value())
      modifies this, draft
      ensures (State(), r)
           == Saves.UpdateWith(w, old(State()), if edited.Ok? then Ok(old(draft.Value())) else Err(edited.error), save)
      ensures store == if r.Ok? then draft else old(store)
    {
      if stopped {
        return Err(Io);
      }
      if edited.Err? {
        return edited;
      }
      var previous := store.Value();
      ghost var e := draft.Value();
      r := draft.Refresh(previous);
      if r.Err? {
        return;
      }
      ghost var published := draft.Value();
      U.PublishKeeps(e, previous, published);
      draft.Normalize();
      U.NormalizeKeeps(published, draft.Value());
      r := draft.PrepareSave(previous);
      if r.Err? {
        return;
      }
      var admissible := Admits(draft, w);
      if !admissible {
        return Err(Capacity);
      }
      r := Save(draft, save);
    }

    /** The update of `submit_inner`; gives the grant to start a process under, if any. */
    method Accept(c: Call, now: Now, permit: bool, requestId: string, w: Widths, save: Saves.Save)
      returns (run: Option<Grant>)
      requires U.GoodStore(store.Value()) && c.argv != []
      requires Edits.Fair(store.Value(), Edits.Submit(c, now, permit, requestId))
      modifies this
      ensures var e := SubmitEdit(old(store.Value()), c, now, permit, requestId);
        var after := Saves.UpdateWith(w, old(State()), if e.Ok? then Ok(e.value.store) else Err(e.error), save);
        State() == after.0 && run == if after.1.Ok? && e.Ok? then e.value.run else None
      ensures store == old(store) || fresh(store)
    {
      var s := store.Value();
      var draft := new LiveStore(s);
      var accepted := draft.Accept(c, now, permit, requestId);
      if accepted.Ok? {
        Edits.SubmitIsGood(s, c, now, permit, requestId, Accepted(draft.Value(), accepted.value));
      }
      var r := Update(draft, if accepted.Ok? then Ok(()) else Err(accepted.error), w, save);
      run := if r.Ok? && accepted.Ok? then accepted.value else None;
    }

    /** The update of `finish`. */
    method Settle(g: Grant, run: Job, o: Outcome, w: Widths, save: Saves.Save) returns (r: Result<()>)
      requires U.GoodStore(store.Value()) && run.body == store.name
      modifies this
      ensures (State(), r) == Saves.UpdateWith(w, old(State()), FinishEdit(old(store.Value()), g, run, o), save)
      ensures r.Err? ==> store == old(store)
    {
      var s := store.Value();
      var draft := new LiveStore(s);
      var edited := draft.Settle(g, run, o);
      if edited.Ok? {
        Edits.EveryEditIsGood(s, Edits.Finish(g, run, o), draft.Value());
      }
      r := Update(draft, edited, w, save);
    }

    /** The update of `recover_jobs`. */
    method Recover(w: Widths, save: Saves.Save) returns (r: Result<()>)
      requires U.GoodStore(store.Value())
      modifies this
      ensures var s := old(store.Value());
        (State(), r) == Saves.UpdateWith(w, old(State()), Ok(s.(jobs := RecoverRows(s.jobs, s.name))), save)
      ensures r.Err? ==> store == old(store)
      ensures store == old(store) || fresh(store)
    {
      var s := store.Value();
      var draft := new LiveStore(s);
      draft.Recover();
      Edits.RecoverIsGood(s);
      r := Update(draft, Ok(()), w, save);
    }

    /** `recovery_failed`: only memory says that unfinished runs are uncertain, and updates stop. */
    method Refuse()
      modifies this, store
      ensures store == old(store)
      ensures State()
           == Saves.Machine(old(store.Value()).(jobs := RecoverRows(old(store.jobs), store.name)), old(file), true)
    {
      store.Recover();
      stopped := true;
    }

    /** What a starting process does before it serves: recover, or refuse updates. */
    method Start(w: Widths, save: Saves.Save)
      requires U.GoodStore(store.Value())
      modifies this, store
      ensures var m := old(State());
        var rows := m.mem.(jobs := RecoverRows(m.mem.jobs, m.mem.name));
        var after := if Admission.AnyRunning(m.mem) then Saves.UpdateWith(w, m, Ok(rows), save) else (m, Ok(()));
        State() == if after.1.Ok? then after.0 else Saves.Machine(rows, after.0.disk, true)
      ensures store == old(store) || fresh(store)
    {
      if exists j :: j in store.jobs && j.body == store.name && j.status.Running? {
        var r := Recover(w, save);
        if r.Err? {
          Refuse();
        }
      }
    }

    /** `reserve_completion`, with the limit on the file itself. */
    method Admits(draft: LiveStore, w: Widths) returns (ok: bool)
      ensures ok <==> U.Admissible(w, draft.Value(), store.Value())
    {
      var encoded := draft.EncodedBytes(w);
      if encoded > STATE_BYTES {
        return false;
      }
      var charge := draft.ChargeFor(encoded);
      if charge <= STATE_BYTES {
        return true;
      }
      var before := store.EncodedBytes(w);
      if before > STATE_BYTES {
        return false;
      }
      var allowed := store.ChargeFor(before);
      return charge <= allowed;
    }

    /** `save_encoded` and the swap: a save that reports failure may have replaced the file. */
    method Save(draft: LiveStore, save: Saves.Save) returns (r: Result<()>)
      requires !stopped
      modifies this
      ensures State() == Saves.AfterSave(old(State()), draft.Value(), save)
      ensures r == if save.Saved? then Ok(()) else Err(Io)
      ensures store == if r.Ok? then draft else old(store)
    {
      match save
      case Saved =>
        store, file := draft, draft.Value();
        return Ok(());
      case Failed(replaced) =>
        if replaced {
          file := draft.Value();
        }
        stopped := true;
        return Err(Io);
    }
  }

  // ---- src/exec.rs

  /** The running sidecar: its store and the processes it watches. */
  class Daemon {
    var process: Process
    var tasks: map<string, Admission.Task>
    ghost var log: seq<Admission.Event>
    ghost var next: nat

    function View(): (Saves.Machine, map<string, Admission.Task>)
      reads this, process, process.store
    {
      (process.State(), tasks)
    }

    ghost function Abstract(): Admission.Sidecar
      reads this, process, process.store
    {
      Admission.Sidecar(process.State(), tasks, log, next)
    }

    constructor (s: Store, n: nat)
      ensures Abstract() == Admission.Sidecar(Saves.Machine(s, s, false), map[], [], n)
      ensures fresh(process) && fresh(process.store)
    {
      process := new Process(s);
      tasks, log, next := map[], [], n;
    }

    /** Admits a call once; a call whose ID is known is answered from its row. */
    method Submit(c: Call, now: Now, permit: bool, requestId: string, w: Widths, save: Saves.Save)
      requires U.GoodStore(process.store.Value())
      requires Gate(process.store.Value(), c) == Ok(None) ==>
        Edits.Fair(process.store.Value(), Edits.Submit(c, now, permit, requestId))
      modifies this, process
      ensures process == old(process)
      ensures Abstract() == Admission.AfterSubmit(w, old(Abstract()), Admission.Submit(c, now, permit, requestId, save))
    {
      var gate := Gate(process.store.Value(), c);
      if gate.Ok? && gate.value.None? && c.argv != [] {
        Admit(c, now, permit, requestId, w, save);
      }
    }

    /** The update of an admission, and the process it starts. */
    method Admit(c: Call, now: Now, permit: bool, requestId: string, w: Widths, save: Saves.Save)
      requires U.GoodStore(process.store.Value()) && c.argv != []
      requires Edits.Fair(process.store.Value(), Edits.Submit(c, now, permit, requestId))
      modifies this, process
      ensures process == old(process)
      ensures Abstract() == Admission.AfterAdmission(w, old(Abstract()),
                                                     Admission.Submit(c, now, permit, requestId, save),
                                                     SubmitEdit(old(process.store.Value()), c, now, permit, requestId))
    {
      var s := process.store.Value();
      var run := process.Accept(c, now, permit, requestId, w, save);
      if run.Some? {
        var g := run.value;
        var task := Admission.Task(g, NewRow(s, c, Running), Admission.Executing);
        tasks, log := tasks[c.id := task], log + [Admission.Started(c.id, g.instance, g.once)];
      }
    }

    method ProcessEnds(id: string, o: Outcome)
      requires id in tasks && tasks[id].phase.Executing?
      modifies this
      ensures process == old(process)
      ensures Abstract() == old(Abstract()).(tasks := old(tasks)[id := old(tasks)[id].(phase := Admission.Ended(o))],
                                             log := old(log) + [Admission.Stopped(id, Success(o))])
    {
      tasks := tasks[id := tasks[id].(phase := Admission.Ended(o))];
      log := log + [Admission.Stopped(id, Success(o))];
    }

    /** Saves the end of a run; when that fails only memory says that its outcome is uncertain. */
    method Complete(id: string, reason: string, w: Widths, save: Saves.Save)
      requires id in tasks && tasks[id].phase.Ended? && tasks[id].run.body == process.store.name
      requires U.GoodStore(process.store.Value())
      modifies this, process, process.store
      ensures process == old(process)
      ensures Abstract() == Admission.AfterComplete(w, old(Abstract()), Admission.Complete(id, reason, save))
    {
      var task := tasks[id];
      var r := process.Settle(task.grant, task.run, task.phase.outcome, w, save);
      if r.Err? {
        process.store.Mark(id, reason);
      }
      tasks := tasks - {id};
    }

    /** A new process on the same file; runs it finds unfinished become uncertain, or, when that cannot
        be saved, it stops updating. */
    method Restart(w: Widths, save: Saves.Save)
      requires U.GoodStore(process.file)
      modifies this
      ensures fresh(process) && fresh(process.store)
      ensures Abstract() == Admission.AfterRestart(w, old(Abstract()), Admission.Restart(save))
    {
      var disk := process.file;
      process := new Process(disk);
      tasks := map[];
      process.Start(w, save);
    }
  }
}
