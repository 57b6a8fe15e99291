/** Signed history (src/history.rs): what one store update does to the replica.
    Each operation that the program runs in place on a store is given here as a function from the
    store before to the store after; `Live.LiveStore` runs them in place and is proved against them. */
module History {
  import opened Types

  const PAGE_ROWS: nat := 16
  const STREAM_BYTES: nat := 4 * 1024 * 1024
  const ID_BYTES: nat := 128
  const TOOL_BYTES: nat := 4096
  const ARGV_COUNT: nat := 256
  const ARGV_BYTES: nat := 64 * 1024
  const STATUS_REASON_BYTES: nat := 64 * 1024

  // ---- src/limits.rs

  predicate ValidIdentifier(id: string) {
    0 < |id| <= ID_BYTES && '\0' !in id
  }

  predicate ValidTool(tool: string) {
    0 < |tool| <= TOOL_BYTES && '\0' !in tool
  }

  function TotalBytes(argv: seq<string>): nat {
    if argv == [] then 0 else |argv[0]| + TotalBytes(argv[1..])
  }

  predicate ValidCommand(id: string, argv: seq<string>) {
    && ValidIdentifier(id)
    && 0 < |argv| <= ARGV_COUNT
    && ValidTool(argv[0])
    && (forall a :: a in argv ==> '\0' !in a)
    && TotalBytes(argv) <= ARGV_BYTES
  }

  predicate ValidReason(s: Status) {
    (s.Denied? || s.Failed? || s.Uncertain?) ==> |s.reason| <= STATUS_REASON_BYTES
  }

  // ---- Identities and signatures

  function OutputOf(bytes: seq<byte>): OutputRef {
    OutputRef(|bytes|, Sha256(bytes))
  }

  function KeyIn(peers: seq<Peer>, name: string): Option<PublicKey> {
    if peers == [] then None
    else if peers[0].name == name then Some(peers[0].key)
    else KeyIn(peers[1..], name)
  }

  function KnownKey(s: Store, name: string): Option<PublicKey> {
    if name == s.name then Some(s.key) else KeyIn(s.peers, name)
  }

  predicate Verifies(key: PublicKey, message: Message, signature: Signature) {
    signature == Signed(key, message)
  }

  predicate ValidInvocation(s: Store, c: Certificate) {
    var i := c.invocation;
    && ValidCommand(i.id, i.argv)
    && (i.retryOf.Some? ==> ValidIdentifier(i.retryOf.value) && i.retryOf.value != i.id)
    && KnownKey(s, i.from) == Some(i.originKey)
    && KnownKey(s, i.body) == Some(i.runnerKey)
    && Verifies(i.originKey, Admission(i), c.signature)
  }

  predicate ValidOutputRef(o: OutputRef) {
    o.bytes <= STREAM_BYTES && o.digest.Sha256?
  }

  predicate ValidFact(c: Certificate, signed: SignedFact, role: Role) {
    var f := signed.fact;
    var i := c.invocation;
    && f.role == role && f.invocation == i && f.revision != 0
    && ValidOutputRef(f.stdout) && ValidOutputRef(f.stderr)
    && (match role
        case Origin =>
          && (f.status.Queued? || f.status.WaitingBody? || f.status.WaitingCapacity? || f.status.Failed?)
          && f.stdout.bytes == 0 && f.stderr.bytes == 0
        case Runner =>
          !(f.status.Queued? || f.status.WaitingBody? || f.status.WaitingCapacity?))
    && ValidReason(f.status)
    && Verifies(if role.Origin? then i.originKey else i.runnerKey, Statement(f), signed.signature)
  }

  predicate ValidRecord(s: Store, r: Record) {
    && ValidInvocation(s, r.certificate)
    && (r.origin.Some? ==> ValidFact(r.certificate, r.origin.value, Origin))
    && (r.runner.Some? ==> ValidFact(r.certificate, r.runner.value, Runner))
  }

  predicate AuthorsKnown(s: Store, c: Certificate) {
    KnownKey(s, c.invocation.from).Some? && KnownKey(s, c.invocation.body).Some?
  }

  predicate MatchesJob(c: Certificate, j: Job) {
    var i := c.invocation;
    i.id == j.id && i.from == j.from && i.body == j.body && i.argv == j.argv
  }

  predicate OutputMatches(o: Captured, f: Fact) {
    OutputOf(o.stdout) == f.stdout && OutputOf(o.stderr) == f.stderr
  }

  function OutputOfJob(j: Job): Captured {
    Captured(j.stdout, j.stderr)
  }

  function NextChange(s: Store): Result<Store> {
    if s.clock < MAX_U64 then Ok(s.(clock := s.clock + 1)) else Err(Protocol)
  }

  // ---- Merging learned records

  function MergeFact(existing: Option<SignedFact>, incoming: Option<SignedFact>): Result<Option<SignedFact>> {
    if incoming.None? then Ok(existing)
    else if existing.None? then Ok(incoming)
    else
      var now, next := existing.value.fact, incoming.value.fact;
      if next.revision < now.revision then Ok(existing)
      else if next.revision == now.revision then
        if incoming != existing then Err(Protocol) else Ok(existing)
      else if IsTerminal(now.status) then Err(Protocol)
      else Ok(incoming)
  }

  function MergeRecord(existing: Record, incoming: Record): Result<Record> {
    if existing.certificate != incoming.certificate then Err(Protocol) else
    var origin :- MergeFact(existing.origin, incoming.origin);
    var runner :- MergeFact(existing.runner, incoming.runner);
    Ok(Record(existing.certificate, origin, runner))
  }

  /** An admitted job on this machine already holds the selected output. */
  predicate HeldLocally(s: Store, key: Invocation, r: Record) {
    r.Selected().Some? &&
    exists j :: j in s.jobs && j.id in s.certs && s.certs[j.id] == key
      && MatchesJob(r.certificate, j) && j.id !in s.outputPruned
      && OutputMatches(OutputOfJob(j), r.Selected().value.fact)
  }

  function MergeOutput(s: Store, key: Invocation, r: Record, held: Option<Captured>, incoming: Option<Captured>)
    : Option<Captured>
  {
    if HeldLocally(s, key, r) then None
    else if r.Selected().None? then held
    else
      var fact := r.Selected().value.fact;
      var kept := if incoming.Some? && key !in s.historyPruned && OutputMatches(incoming.value, fact)
                  then incoming else held;
      if kept.Some? && !OutputMatches(kept.value, fact) then None else kept
  }

  predicate ValidPublished(s: Store, p: Published) {
    && ValidRecord(s, p.record)
    && (p.output.Some? ==>
          && p.record.Selected().Some?
          && OutputMatches(p.output.value, p.record.Selected().value.fact))
  }

  function EntryOrNew(s: Store, c: Certificate): Entry {
    if c.invocation in s.entries then s.entries[c.invocation] else Entry(Record(c, None, None), 0, None)
  }

  /** Whether `ingest` sees a change. Dropping a replica because a local job holds the same bytes is
      deliberately not one. */
  predicate IngestChanges(s: Store, key: Invocation, before: Entry, record: Record, output: Option<Captured>) {
    || key !in s.entries
    || record != before.record
    || (output != before.output && !HeldLocally(s, key, record))
  }

  function Ingest(s: Store, p: Published): Result<Store> {
    if !ValidPublished(s, p) then Err(Protocol) else
    var key := p.record.certificate.invocation;
    var before := EntryOrNew(s, p.record.certificate);
    var record :- MergeRecord(before.record, p.record);
    var output := MergeOutput(s, key, record, before.output, p.output);
    if !IngestChanges(s, key, before, record, output) then Ok(s) else
    var t :- NextChange(s);
    Ok(t.(entries := t.entries[key := Entry(record, t.clock, output)]))
  }

  // ---- Publishing what this machine owns

  function TrustOf(peers: seq<Peer>): set<(string, PublicKey)> {
    set p | p in peers :: (p.name, p.key)
  }

  predicate JobChanged(previous: seq<Job>, j: Job) {
    FindJob(previous, j.id) != Some(j)
  }

  function ChangedJobs(jobs: seq<Job>, previous: seq<Job>): seq<Job> {
    if jobs == [] then []
    else (if JobChanged(previous, jobs[0]) then [jobs[0]] else []) + ChangedJobs(jobs[1..], previous)
  }

  function CertificateFor(s: Store, j: Job): Result<Certificate> {
    var origin, runner := KnownKey(s, j.from), KnownKey(s, j.body);
    if origin.None? || runner.None? then Err(Protocol) else
    var retry := if j.id in s.retryLinks then Some(s.retryLinks[j.id]) else None;
    var i := Invocation(j.id, j.from, origin.value, j.body, runner.value, j.argv, retry);
    Ok(Certificate(i, Signed(s.key, Admission(i))))
  }

  /** A new job of this machine gets its signed admission; the pre-signature paths are `Legacy`. */
  function Certify(s: Store, previous: seq<Job>, j: Job): Result<Store> {
    if j.id in s.certs then Ok(s)
    else if j.from != s.name || FindJob(previous, j.id).Some? then Err(Legacy)
    else
      var c :- CertificateFor(s, j);
      var t :- NextChange(s);
      Ok(t.(entries := t.entries[c.invocation := Entry(Record(c, None, None), t.clock, None)],
            certs := t.certs[j.id := c.invocation]))
  }

  /** Which of the two facts this machine may write for the job, if any. */
  function OwnRole(name: string, j: Job): Option<Role> {
    if j.body == name && !j.status.Queued? && !j.status.WaitingCapacity? then Some(Runner)
    else if j.from == name
         && (j.status.Queued? || j.status.WaitingBody? || j.status.WaitingCapacity? || j.status.Failed?)
    then Some(Origin)
    else None
  }

  function FactIn(r: Record, role: Role): Option<SignedFact> {
    if role.Runner? then r.runner else r.origin
  }

  function WithFact(r: Record, role: Role, f: SignedFact): Record {
    if role.Runner? then r.(runner := Some(f)) else r.(origin := Some(f))
  }

  function DigestsFor(s: Store, j: Job, role: Role, previous: Option<SignedFact>): Result<(OutputRef, OutputRef)> {
    if role.Origin? then Ok((OutputOf([]), OutputOf([])))
    else if j.id in s.outputPruned then
      if previous.Some? then Ok((previous.value.fact.stdout, previous.value.fact.stderr)) else Err(Protocol)
    else Ok((OutputOf(j.stdout), OutputOf(j.stderr)))
  }

  predicate SaysSame(f: Fact, status: Status, digests: (OutputRef, OutputRef)) {
    f.status == status && f.stdout == digests.0 && f.stderr == digests.1
  }

  function OutputAfterPublishing(s: Store, j: Job, selected: Fact, held: Option<Captured>): Option<Captured> {
    if (j.id !in s.outputPruned && OutputMatches(OutputOfJob(j), selected))
       || (held.Some? && !OutputMatches(held.value, selected))
    then None else held
  }

  function WriteFact(s: Store, j: Job, role: Role, digests: (OutputRef, OutputRef)): Result<Store>
    requires j.id in s.certs && s.certs[j.id] in s.entries
  {
    var key := s.certs[j.id];
    var e := s.entries[key];
    var previous := FactIn(e.record, role);
    var revision := if previous.Some? then previous.value.fact.revision + 1 else 1;
    if revision > MAX_U64 then Err(Protocol) else
    var f := Fact(key, role, revision, j.status, digests.0, digests.1);
    var t :- NextChange(s);
    var record := WithFact(e.record, role, SignedFact(f, Signed(s.key, Statement(f))));
    var output := OutputAfterPublishing(s, j, record.Selected().value.fact, e.output);
    Ok(t.(entries := t.entries[key := Entry(record, t.clock, output)]))
  }

  function PublishJob(s: Store, previous: seq<Job>, j: Job): Result<Store> {
    if j.from != s.name && j.body != s.name then Ok(s) else
    var t :- Certify(s, previous, j);
    if j.id !in t.certs || t.certs[j.id] !in t.entries then Err(Protocol) else
    var record := t.entries[t.certs[j.id]].record;
    if !MatchesJob(record.certificate, j) then Err(Protocol) else
    var role := OwnRole(t.name, j);
    if role.None? then Ok(t) else
    var written := FactIn(record, role.value);
    var digests :- DigestsFor(t, j, role.value, written);
    if written.Some? && (SaysSame(written.value.fact, j.status, digests) || IsTerminal(written.value.fact.status))
    then Ok(t)
    else WriteFact(t, j, role.value, digests)
  }

  function PublishJobs(s: Store, previous: seq<Job>, changed: seq<Job>): Result<Store>
    decreases |changed|
  {
    if changed == [] then Ok(s) else
    var t :- PublishJob(s, previous, changed[0]);
    PublishJobs(t, previous, changed[1..])
  }

  function WithTrust(s: Store): Store {
    var trust := TrustOf(s.peers);
    if trust != s.trust then s.(progress := map[], trust := trust) else s
  }

  function RefreshOwned(s: Store, previous: Store): Result<Store> {
    PublishJobs(WithTrust(s), previous.jobs, ChangedJobs(s.jobs, previous.jobs))
  }

  // ---- Dropping pruned and duplicate output before a save

  function ForgetPruned(s: Store): Store {
    s.(entries := map k | k in s.entries ::
         if k in s.historyPruned then s.entries[k].(output := None) else s.entries[k])
  }

  predicate BoundTo(s: Store, j: Job, key: Invocation) {
    && j.id in s.certs && s.certs[j.id] == key
    && key in s.entries && MatchesJob(s.entries[key].record.certificate, j)
  }

  function NormalizeJob(s: Store, i: nat): Store
    requires i < |s.jobs|
  {
    var j := s.jobs[i];
    if j.id !in s.certs || !BoundTo(s, j, s.certs[j.id]) then s else
    var key := s.certs[j.id];
    var e := s.entries[key];
    if key in s.historyPruned then
      var selected := e.record.Selected();
      s.(jobs := s.jobs[i := j.(stdout := [], stderr := [])],
         outputPruned := s.outputPruned
           + if selected.Some? && (selected.value.fact.stdout.bytes != 0 || selected.value.fact.stderr.bytes != 0)
             then {j.id} else {})
    else if j.id !in s.outputPruned && e.output == Some(OutputOfJob(j)) then
      s.(entries := s.entries[key := e.(output := None)])
    else s
  }

  function NormalizeJobs(s: Store, i: nat): Store
    requires i <= |s.jobs|
    decreases |s.jobs| - i
  {
    if i == |s.jobs| then s else NormalizeJobs(NormalizeJob(s, i), i + 1)
  }

  function NormalizeOutput(s: Store): Store {
    NormalizeJobs(ForgetPruned(s), 0)
  }

  // ---- Admission and runner replies

  function BindAdmission(s: Store, c: Certificate): Result<Store> {
    var key := c.invocation;
    if key.id in s.certs && s.certs[key.id] != key then Err(Protocol)
    else if key.id !in s.certs && FindJob(s.jobs, key.id).Some? then Err(Protocol)
    else
      var t :- if key in s.entries then Ok(s) else
                 var u :- NextChange(s);
                 Ok(u.(entries := u.entries[key := Entry(Record(c, None, None), u.clock, None)]));
      Ok(t.(certs := t.certs[key.id := key],
            retryLinks := if key.retryOf.Some? then t.retryLinks[key.id := key.retryOf.value] else t.retryLinks))
  }

  function AcceptRunnerReply(s: Store, peer: string, p: Published): Result<Store> {
    if !ValidRecord(s, p.record) then Err(Protocol) else
    var c := p.record.certificate;
    var key := c.invocation;
    if key.body != peer || p.record.runner.None? then Err(Protocol) else
    var i := JobIndex(s.jobs, key.id);
    if i == |s.jobs| then Ok(s)
    else if key.id !in s.certs || s.certs[key.id] != key || !MatchesJob(c, s.jobs[i]) then Err(Protocol)
    else
      var t :- Ingest(s, p);
      if IsTerminal(s.jobs[i].status) then Ok(t) else
      var fact := p.record.runner.value.fact;
      var retained := p.output.Some? && key !in t.historyPruned && key.id !in t.outputPruned;
      var o := if retained then p.output.value else Captured([], []);
      Ok(t.(jobs := t.jobs[i := Job(key.id, key.from, key.body, key.argv, fact.status, o.stdout, o.stderr)],
            outputPruned := t.outputPruned
              + if !retained && (fact.stdout.bytes != 0 || fact.stderr.bytes != 0) then {key.id} else {}))
  }

  // ---- Serving pages

  function SelectedOutput(s: Store, key: Invocation): Option<Captured>
    requires key in s.entries
  {
    var e := s.entries[key];
    if e.record.Selected().None? || key in s.historyPruned then None else
    var fact := e.record.Selected().value.fact;
    var j := FindJob(s.jobs, key.id);
    if j.Some? && BoundTo(s, j.value, key) && key.id !in s.outputPruned && OutputMatches(OutputOfJob(j.value), fact)
    then Some(OutputOfJob(j.value))
    else if e.output.Some? && OutputMatches(e.output.value, fact) then e.output
    else None
  }

  function Export(s: Store, key: Invocation): Published
    requires key in s.entries
  {
    Published(s.entries[key].record, SelectedOutput(s, key), s.entries[key].change)
  }

  // ---- Learning a page

  datatype Page = Page(epoch: string, reset: bool, high: nat, next: nat, complete: bool, entries: seq<Published>)

  /** Entries by authors this machine does not know are skipped and remembered as unknown. */
  function LearnAll(s: Store, entries: seq<Published>, unknown: bool): Result<(Store, bool)>
    decreases |entries|
  {
    if entries == [] then Ok((s, unknown))
    else if !AuthorsKnown(s, entries[0].record.certificate) then LearnAll(s, entries[1..], true)
    else
      var t :- Ingest(s, entries[0]);
      LearnAll(t, entries[1..], unknown)
  }

  /** The update with which `sync_peer` applies a page it asked for with the given progress. */
  function LearnPage(s: Store, peer: string, asked: Progress, page: Page): Result<Store> {
    var learned :- LearnAll(s, page.entries, !page.reset && asked.unknown);
    Ok(learned.0.(progress := learned.0.progress[peer :=
        Progress(page.epoch, page.next, page.high, page.complete, learned.1)]))
  }
}
