/** The length of the saved state (serde_json's compact form of `Store`) and the charge that
    src/storage.rs derives from it. Lengths of arrays, numbers and strings are those of sections 5, 6
    and 7 of RFC 8259. */
module Encoding {
  import opened Types
  import opened Sums

  const OUTPUT_BYTES: nat := 16 * 1024 * 1024
  const STATE_BYTES: nat := 128 * 1024 * 1024
  const COMPLETION_RESERVE: nat := 2 * 1024 * 1024

  // ---- Numbers and byte arrays as text

  function Decimal(n: nat): (text: string) {
    if n < 10 then ["0123456789"[n]] else Decimal(n / 10) + ["0123456789"[n % 10]]
  }

  function Digits(n: nat): (d: nat)
    ensures d >= 1
  {
    if n < 10 then 1 else 1 + Digits(n / 10)
  }

  lemma {:induction false} DecimalLength(n: nat)
    ensures |Decimal(n)| == Digits(n)
  {
    if n >= 10 {
      DecimalLength(n / 10);
    }
  }

  function Pow10(d: nat): (p: nat)
    ensures p >= 1
  {
    if d == 0 then 1 else 10 * Pow10(d - 1)
  }

  lemma {:induction false} DigitsBelow(n: nat, d: nat)
    requires d >= 1 && n < Pow10(d)
    ensures Digits(n) <= d
  {
    if n >= 10 {
      assert Pow10(1) == 10 * Pow10(0);
      DigitsBelow(n / 10, d - 1);
    }
  }

  lemma DigitsOfU64(n: nat)
    requires n <= MAX_U64
    ensures Digits(n) <= 20
  {
    assert Pow10(5) == 100_000;
    assert Pow10(10) == 10_000_000_000;
    assert Pow10(15) == 1_000_000_000_000_000;
    assert Pow10(20) == 100_000_000_000_000_000_000;
    DigitsBelow(n, 20);
  }

  /** The text between the brackets of a JSON array of bytes. */
  function ArrayInner(bytes: seq<byte>): string {
    if bytes == [] then ""
    else Decimal(bytes[0] as nat) + if |bytes| == 1 then "" else "," + ArrayInner(bytes[1..])
  }

  function ByteWidths(bytes: seq<byte>): nat {
    if bytes == [] then 0
    else (if bytes[0] >= 100 then 3 else if bytes[0] >= 10 then 2 else 1) + ByteWidths(bytes[1..])
  }

  function PayloadJsonBytes(bytes: seq<byte>): (n: nat) {
    if bytes == [] then 0 else ByteWidths(bytes) + |bytes| - 1
  }

  lemma {:induction false} PayloadIsArrayInner(bytes: seq<byte>)
    ensures PayloadJsonBytes(bytes) == |ArrayInner(bytes)|
    ensures PayloadJsonBytes(bytes) <= 4 * |bytes|
  {
    if bytes != [] {
      var n := bytes[0] as nat;
      DecimalLength(n);
      if n >= 10 {
        assert Digits(n) == 1 + Digits(n / 10) == if n / 10 < 10 then 2 else 2 + Digits(n / 10 / 10);
      }
      assert Digits(n) == if n >= 100 then 3 else if n >= 10 then 2 else 1;
      PayloadIsArrayInner(bytes[1..]);
    }
  }

  // ---- Strings

  function EscapeWidth(c: char): nat {
    if c == '\"' || c == '\\' then 2
    else if c as int in {8, 9, 10, 12, 13} then 2
    else if c as int < 32 then 6
    else 1
  }

  function EscapedLen(text: string): (n: nat)
    ensures n <= 6 * |text|
  {
    if text == [] then 0 else EscapeWidth(text[0]) + EscapedLen(text[1..])
  }

  function Quoted(text: string): nat {
    EscapedLen(text) + 2
  }

  function Commas(n: nat): nat {
    if n == 0 then 0 else n - 1
  }

  function QuotedSum(texts: seq<string>): nat {
    SumSeq(texts, (t: string) => Quoted(t))
  }

  const NULL_LEN: nat := 4
  const HASH_LEN: nat := 66  // 64 hexadecimal digits in quotes

  // ---- Rows

  function IntLen(i: int): nat {
    if i < 0 then 1 + Digits(-i) else Digits(i)
  }

  function StatusLen(s: Status): nat {
    match s
    case Queued => 8
    case WaitingBody => 13
    case WaitingCapacity => 17
    case Running => 9
    case Done(exit) => 18 + IntLen(exit)
    case Denied(reason) => 22 + Quoted(reason)
    case Failed(reason) => 22 + Quoted(reason)
    case Uncertain(reason) => 25 + Quoted(reason)
  }

  /** A job row without the numbers inside its two byte arrays. */
  function JobRow(j: Job): nat {
    6 + Quoted(j.id) + 8 + Quoted(j.body) + 8 + 2 + QuotedSum(j.argv) + Commas(|j.argv|)
    + 8 + Quoted(j.from) + 10 + StatusLen(j.status) + 10 + 2 + 10 + 2 + 1
  }

  function OutputRefLen(o: OutputRef): nat {
    86 + Digits(o.bytes)
  }

  function FactLen(f: Fact): nat {
    73 + HASH_LEN + Digits(f.revision) + StatusLen(f.status) + OutputRefLen(f.stdout) + OutputRefLen(f.stderr)
  }

  /** The modelled fields leave out `Other`'s text, which these operations copy unchanged, and the
      bytes behind symbolic certificates and signatures; their lengths are arbitrary. */
  datatype Other = Other(
    name: string, key: PublicKey, peers: seq<Peer>, requests: seq<Request>, epoch: string,
    trust: set<(string, PublicKey)>, progress: map<string, Progress>,
    retryLinks: map<string, string>, certs: map<string, Invocation>)
  datatype Widths = Widths(
    other: Other -> nat, permission: Grant -> nat, certificate: Certificate -> nat, signature: Signature -> nat)

  /** 64 signature bytes of at most three digits each, with their commas and brackets. */
  const SIGNATURE_LEN: nat := 257
  ghost predicate Plausible(w: Widths) {
    forall s :: w.signature(s) <= SIGNATURE_LEN
  }

  function OtherOf(s: Store): Other {
    Other(s.name, s.key, s.peers, s.requests, s.epoch, s.trust, s.progress, s.retryLinks, s.certs)
  }

  function SignedFactLen(w: Widths, f: Option<SignedFact>): nat {
    if f.None? then NULL_LEN else 22 + FactLen(f.value.fact) + w.signature(f.value.signature)
  }

  function RecordLen(w: Widths, r: Record): nat {
    36 + w.certificate(r.certificate) + SignedFactLen(w, r.origin) + SignedFactLen(w, r.runner)
  }

  /** A history entry with its key, without the numbers inside its byte arrays. */
  function EntryRow(w: Widths, e: Entry): nat {
    HASH_LEN + 1 + 31 + RecordLen(w, e.record) + Digits(e.change) + if e.output.None? then NULL_LEN else 25
  }

  function GrantLen(w: Widths, g: Grant): nat {
    w.permission(g.(reservation := None)) + if g.reservation.None? then NULL_LEN else Quoted(g.reservation.value)
  }

  function GrantRow(w: Widths): Grant -> nat {
    (g: Grant) => GrantLen(w, g)
  }

  function OutputLen(o: Option<Captured>): nat {
    if o.None? then 0 else PayloadJsonBytes(o.value.stdout) + PayloadJsonBytes(o.value.stderr)
  }

  function RetainedBytes(o: Option<Captured>): nat {
    if o.None? then 0 else |o.value.stdout| + |o.value.stderr|
  }

  function JobPayload(j: Job): nat {
    PayloadJsonBytes(j.stdout) + PayloadJsonBytes(j.stderr)
  }

  function JobBytes(j: Job): nat {
    |j.stdout| + |j.stderr|
  }

  // ---- The whole state

  function AtEntry(entries: map<Invocation, Entry>, f: Entry -> nat): Invocation -> nat {
    k => if k in entries then f(entries[k]) else 0
  }

  ghost function EntrySum(entries: map<Invocation, Entry>, f: Entry -> nat): nat {
    Sum(entries.Keys, AtEntry(entries, f))
  }

  ghost function TextSetLen(texts: set<string>): nat {
    2 + Sum(texts, (t: string) => Quoted(t)) + Commas(|texts|)
  }

  ghost function HashSetLen(keys: set<Invocation>): nat {
    2 + HASH_LEN * |keys| + Commas(|keys|)
  }

  ghost function PayloadLen(s: Store): nat {
    SumSeq(s.jobs, (j: Job) => JobPayload(j)) + EntrySum(s.entries, (e: Entry) => OutputLen(e.output))
  }

  ghost function MetadataLen(w: Widths, s: Store): nat {
    w.other(OtherOf(s)) + Digits(s.clock)
    + 2 + SumSeq(s.grants, GrantRow(w)) + Commas(|s.grants|)
    + 2 + SumSeq(s.jobs, (j: Job) => JobRow(j)) + Commas(|s.jobs|)
    + 2 + EntrySum(s.entries, (e: Entry) => EntryRow(w, e)) + Commas(|s.entries|)
    + TextSetLen(s.outputPruned) + HashSetLen(s.historyPruned)
  }

  ghost function EncodedLen(w: Widths, s: Store): nat {
    MetadataLen(w, s) + PayloadLen(s)
  }

  ghost function OutputBytes(s: Store): nat {
    SumSeq(s.jobs, (j: Job) => JobBytes(j)) + EntrySum(s.entries, (e: Entry) => RetainedBytes(e.output))
  }

  // ---- completion_charge

  function Headroom(n: nat): nat {
    if Digits(n) <= 20 then 20 - Digits(n) else 0
  }

  /** Room for the permanent receipt that pruning this output would still add. */
  function JobReceiptLen(pruned: set<string>, j: Job): nat {
    if j.id in pruned then 0 else Quoted(j.id) + 1
  }

  function KeyReceiptLen(pruned: set<Invocation>, k: Invocation): nat {
    if k in pruned then 0 else HASH_LEN + 1
  }

  function JobReceipt(pruned: set<string>): Job -> nat {
    (j: Job) => JobReceiptLen(pruned, j)
  }

  function KeyReceipt(pruned: set<Invocation>): Invocation -> nat {
    k => KeyReceiptLen(pruned, k)
  }

  function Pending(j: Job): nat {
    if IsTerminal(j.status) then 0 else 1
  }

  ghost function CompletionCharge(s: Store, encoded: nat): nat {
    var payload := PayloadLen(s);
    var metadata := if encoded < payload then 0 else encoded - payload;
    var receipts := SumSeq(s.jobs, JobReceipt(s.outputPruned)) + Sum(s.entries.Keys, KeyReceipt(s.historyPruned));
    var sequences := Headroom(s.clock) + EntrySum(s.entries, (e: Entry) => Headroom(e.change));
    metadata + receipts + sequences + OUTPUT_BYTES * 4
    + SumSeq(s.jobs, (j: Job) => Pending(j)) * COMPLETION_RESERVE
  }

  ghost function Charge(w: Widths, s: Store): nat {
    CompletionCharge(s, EncodedLen(w, s))
  }

  // ---- The same charge, row by row

  function JobCharge(pruned: set<string>): Job -> nat {
    (j: Job) => JobRow(j) + JobReceiptLen(pruned, j) + Pending(j) * COMPLETION_RESERVE
  }

  function EntryCharge(w: Widths, entries: map<Invocation, Entry>, pruned: set<Invocation>): Invocation -> nat {
    k => if k in entries then EntryRow(w, entries[k]) + Headroom(entries[k].change) + KeyReceiptLen(pruned, k) else 0
  }

  ghost function FixedCharge(w: Widths, s: Store): nat {
    w.other(OtherOf(s)) + Digits(s.clock) + Headroom(s.clock)
    + 2 + SumSeq(s.grants, GrantRow(w)) + Commas(|s.grants|) + 2 + Commas(|s.jobs|) + 2 + Commas(|s.entries|)
    + OUTPUT_BYTES * 4
  }

  lemma {:induction false} PendingReserve(jobs: seq<Job>)
    ensures SumSeq(jobs, (j: Job) => Pending(j) * COMPLETION_RESERVE)
         == SumSeq(jobs, (j: Job) => Pending(j)) * COMPLETION_RESERVE
  {
    if jobs != [] {
      PendingReserve(jobs[1..]);
    }
  }

  lemma JobChargeSum(jobs: seq<Job>, pruned: set<string>)
    ensures SumSeq(jobs, JobCharge(pruned))
         == SumSeq(jobs, (j: Job) => JobRow(j)) + SumSeq(jobs, JobReceipt(pruned))
            + SumSeq(jobs, (j: Job) => Pending(j)) * COMPLETION_RESERVE
  {
    var row, reserve := (j: Job) => JobRow(j), (j: Job) => Pending(j) * COMPLETION_RESERVE;
    var both := (j: Job) => JobRow(j) + JobReceiptLen(pruned, j);
    PendingReserve(jobs);
    SumSeqPlus(jobs, row, JobReceipt(pruned), both);
    SumSeqPlus(jobs, both, reserve, JobCharge(pruned));
  }

  lemma EntryChargeSum(w: Widths, entries: map<Invocation, Entry>, pruned: set<Invocation>)
    ensures Sum(entries.Keys, EntryCharge(w, entries, pruned))
         == EntrySum(entries, (e: Entry) => EntryRow(w, e)) + EntrySum(entries, (e: Entry) => Headroom(e.change))
            + Sum(entries.Keys, KeyReceipt(pruned))
  {
    var row := AtEntry(entries, (e: Entry) => EntryRow(w, e));
    var room := AtEntry(entries, (e: Entry) => Headroom(e.change));
    var both := k => row(k) + room(k);
    SumPlus(entries.Keys, row, room, both);
    SumPlus(entries.Keys, both, KeyReceipt(pruned), EntryCharge(w, entries, pruned));
  }

  lemma ChargeByRows(w: Widths, s: Store)
    ensures Charge(w, s)
         == FixedCharge(w, s) + SumSeq(s.jobs, JobCharge(s.outputPruned)) + TextSetLen(s.outputPruned)
            + Sum(s.entries.Keys, EntryCharge(w, s.entries, s.historyPruned)) + HashSetLen(s.historyPruned)
  {
    JobChargeSum(s.jobs, s.outputPruned);
    EntryChargeSum(w, s.entries, s.historyPruned);
  }
}
