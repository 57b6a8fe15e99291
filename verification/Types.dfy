/** The records one Clix machine keeps, and the result type its operations return.

    A `string` holds one character per byte of the UTF-8 text. Keys, signatures and hashes are
    symbolic: a signature names its signer and its message, a digest names the bytes it was taken
    of, and the hash of an invocation is the invocation itself. */
module Types {
  datatype Option<+T> = None | Some(value: T)

  datatype Error =
    | Protocol | Capacity | Usage | NotAdded | GrantBusy | NotAllowed | Expired | NotAddedAtTime
    | Io | Unreachable | PinConflict | Legacy

  datatype Result<+T> = Ok(value: T) | Err(error: Error) {
    predicate IsFailure() { Err? }
    function PropagateFailure<U>(): Result<U>
      requires Err?
    {
      Err(error)
    }
    function Extract(): T
      requires Ok?
    {
      value
    }
  }

  newtype byte = x: int | 0 <= x < 256
  const MAX_U64: nat := 0xFFFF_FFFF_FFFF_FFFF

  // ---- src/types.rs

  datatype Status =
    | Queued | WaitingBody | WaitingCapacity | Running
    | Done(exit: int) | Denied(reason: string) | Failed(reason: string) | Uncertain(reason: string)

  predicate IsTerminal(s: Status) {
    s.Done? || s.Denied? || s.Failed? || s.Uncertain?
  }

  datatype Job = Job(
    id: string, from: string, body: string, argv: seq<string>,
    status: Status, stdout: seq<byte>, stderr: seq<byte>)

  datatype Captured = Captured(stdout: seq<byte>, stderr: seq<byte>)

  /** `window` is the set of local minutes a schedule allows. `instance` numbers the owner decision
      that created the grant; no branch reads it. */
  datatype Grant = Grant(
    tool: string, binary: string, allowFrom: Option<seq<string>>, once: bool,
    until: Option<nat>, window: Option<set<nat>>, args: Option<seq<seq<string>>>,
    reservation: Option<string>, instance: nat)

  datatype Request = Request(id: string, from: string, tool: string)

  type PublicKey = nat
  datatype Peer = Peer(name: string, key: PublicKey, addr: Option<string>)

  // ---- src/history.rs

  datatype Role = Origin | Runner

  datatype Digest = Sha256(bytes: seq<byte>) | Malformed
  datatype OutputRef = OutputRef(bytes: nat, digest: Digest)

  datatype Invocation = Invocation(
    id: string, from: string, originKey: PublicKey, body: string, runnerKey: PublicKey,
    argv: seq<string>, retryOf: Option<string>)

  datatype Fact = Fact(
    invocation: Invocation, role: Role, revision: nat, status: Status,
    stdout: OutputRef, stderr: OutputRef)

  datatype Message = Admission(invocation: Invocation) | Statement(fact: Fact)
  datatype Signature = Signed(signer: PublicKey, message: Message) | Forged

  datatype Certificate = Certificate(invocation: Invocation, signature: Signature)
  datatype SignedFact = SignedFact(fact: Fact, signature: Signature)
  datatype Record = Record(certificate: Certificate, origin: Option<SignedFact>, runner: Option<SignedFact>) {
    function Selected(): Option<SignedFact> {
      if runner.Some? then runner else origin
    }
  }
  datatype Entry = Entry(record: Record, change: nat, output: Option<Captured>)
  datatype Published = Published(record: Record, output: Option<Captured>, change: nat)

  datatype Progress = Progress(epoch: string, cursor: nat, high: nat, complete: bool, unknown: bool)
  const NO_PROGRESS := Progress("", 0, 0, false, false)

  /** The fields of `Store` (src/store.rs) and `History` that the modelled operations read or write. */
  datatype Store = Store(
    name: string, key: PublicKey, peers: seq<Peer>,
    grants: seq<Grant>, jobs: seq<Job>, requests: seq<Request>,
    epoch: string, clock: nat, trust: set<(string, PublicKey)>,
    entries: map<Invocation, Entry>, progress: map<string, Progress>,
    retryLinks: map<string, string>, certs: map<string, Invocation>,
    outputPruned: set<string>, historyPruned: set<Invocation>)

  /** `jobs.iter().position(|j| j.id == id)`; the length stands for "none". */
  function JobIndex(jobs: seq<Job>, id: string): (i: nat)
    ensures i <= |jobs|
    ensures i < |jobs| ==> jobs[i].id == id
    ensures forall k :: 0 <= k < i ==> jobs[k].id != id
  {
    if jobs == [] then 0 else if jobs[0].id == id then 0 else 1 + JobIndex(jobs[1..], id)
  }

  function FindJob(jobs: seq<Job>, id: string): Option<Job> {
    var i := JobIndex(jobs, id);
    if i < |jobs| then Some(jobs[i]) else None
  }

  ghost predicate UniqueIds(jobs: seq<Job>) {
    forall i, j :: 0 <= i < j < |jobs| ==> jobs[i].id != jobs[j].id
  }
}
