/** The text of the saved state itself, as serde_json writes `Store` (src/store.rs): that the lengths of `Encoding` are
    the lengths of these texts. Strings, numbers, arrays and objects are those of RFC 8259. */
module JsonText {
  import opened Types
  import opened Sums
  import opened Encoding
  import opened Names
  import Settlement
  import Update

  // ---- Strings (section 7)

  function Hex(n: nat): char
    requires n < 16
  {
    "0123456789abcdef"[n]
  }

  function Escape(c: char): string {
    if c == '\"' then "\\\""
    else if c == '\\' then "\\\\"
    else if c as int == 8 then "\\b"
    else if c as int == 9 then "\\t"
    else if c as int == 10 then "\\n"
    else if c as int == 12 then "\\f"
    else if c as int == 13 then "\\r"
    else if c as int < 32 then "\\u00" + [Hex(c as int / 16), Hex(c as int % 16)]
    else [c]
  }

  function Escaped(text: string): string {
    if text == [] then "" else Escape(text[0]) + Escaped(text[1..])
  }

  function QuotedText(text: string): string {
    "\"" + Escaped(text) + "\""
  }

  lemma {:induction false} EscapedLength(text: string)
    ensures |Escaped(text)| == EscapedLen(text)
  {
    if text != [] {
      EscapedLength(text[1..]);
    }
  }

  lemma QuotedLength(text: string)
    ensures |QuotedText(text)| == Quoted(text)
  {
    EscapedLength(text);
  }

  function Digit16(c: char): nat {
    if '0' <= c <= '9' then c as int - '0' as int
    else if 'a' <= c <= 'f' then c as int - 'a' as int + 10 else 16
  }

  /** Reads a string up to its closing quote; the rest is what follows it. */
  function Read(text: string): Option<(string, string)> {
    if text == "" then None
    else if text[0] == '\"' then Some(("", text[1..]))
    else if text[0] != '\\' then Prefixed(text[0], Read(text[1..]))
    else if |text| < 2 then None
    else
      match text[1]
      case '\"' => Prefixed('\"', Read(text[2..]))
      case '\\' => Prefixed('\\', Read(text[2..]))
      case 'b' => Prefixed(8 as char, Read(text[2..]))
      case 't' => Prefixed(9 as char, Read(text[2..]))
      case 'n' => Prefixed(10 as char, Read(text[2..]))
      case 'f' => Prefixed(12 as char, Read(text[2..]))
      case 'r' => Prefixed(13 as char, Read(text[2..]))
      case 'u' =>
        if |text| < 6 || Digit16(text[4]) >= 16 || Digit16(text[5]) >= 16 then None
        else Prefixed((Digit16(text[4]) * 16 + Digit16(text[5])) as char, Read(text[6..]))
      case _ => None
  }

  function Prefixed(c: char, r: Option<(string, string)>): Option<(string, string)> {
    if r.None? then None else Some(([c] + r.value.0, r.value.1))
  }

  lemma HexReads(n: nat)
    requires n < 16
    ensures Digit16(Hex(n)) == n
  {
  }

  lemma ReadsControl(c: char, text: string, rest: string)
    requires c as int < 32 && text == "\\u00" + [Hex(c as int / 16), Hex(c as int % 16)] + rest
    ensures Read(text) == Prefixed(c, Read(rest))
  {
    HexReads(c as int / 16);
    HexReads(c as int % 16);
    assert text[0] == '\\' && text[1] == 'u' && text[4] == Hex(c as int / 16) && text[5] == Hex(c as int % 16);
    assert text[6..] == rest;
  }

  lemma ReadsShort(c: char, e: char, text: string, rest: string)
    requires text == ['\\', e] + rest
    requires Escape(c) == ['\\', e]
    ensures Read(text) == Prefixed(c, Read(rest))
  {
    assert text[0] == '\\' && text[1] == e && text[2..] == rest;
  }

  lemma ReadsOne(c: char, rest: string)
    ensures Read(Escape(c) + rest) == Prefixed(c, Read(rest))
  {
    var text := Escape(c) + rest;
    if |Escape(c)| == 2 {
      ReadsShort(c, Escape(c)[1], text, rest);
    } else if |Escape(c)| == 6 {
      ReadsControl(c, text, rest);
    } else {
      assert text[0] == c && text[1..] == rest;
    }
  }

  /** What is written between quotes is read back, whatever follows. */
  lemma {:induction false} ReadsBack(text: string, rest: string)
    ensures Read(Escaped(text) + "\"" + rest) == Some((text, rest))
  {
    if text == [] {
      assert Escaped(text) + "\"" + rest == "\"" + rest;
    } else {
      ReadsBack(text[1..], rest);
      ReadsOne(text[0], Escaped(text[1..]) + "\"" + rest);
      assert Escaped(text) + "\"" + rest == Escape(text[0]) + (Escaped(text[1..]) + "\"" + rest);
      assert text == [text[0]] + text[1..];
    }
  }

  // ---- Numbers (section 6), arrays and objects (sections 5 and 4)

  function IntText(i: int): string {
    if i < 0 then "-" + Decimal(-i) else Decimal(i)
  }

  lemma IntLength(i: int)
    ensures |IntText(i)| == IntLen(i)
  {
    DecimalLength(if i < 0 then -i else i);
  }

  function BytesText(bytes: seq<byte>): string {
    "[" + ArrayInner(bytes) + "]"
  }

  /** The items with commas between them. */
  function Joined<T>(items: seq<T>, text: T -> string): string {
    if items == [] then ""
    else if |items| == 1 then text(items[0])
    else text(items[0]) + "," + Joined(items[1..], text)
  }

  lemma {:induction false} JoinedLength<T>(items: seq<T>, text: T -> string, len: T -> nat)
    requires forall x :: x in items ==> |text(x)| == len(x)
    ensures |Joined(items, text)| == SumSeq(items, len) + Commas(|items|)
  {
    if items != [] {
      JoinedLength(items[1..], text, len);
      assert SumSeq([], len) == 0;
    }
  }

  function StringsText(texts: seq<string>): string {
    "[" + Joined(texts, QuotedText) + "]"
  }

  lemma StringsLength(texts: seq<string>)
    ensures |StringsText(texts)| == 2 + QuotedSum(texts) + Commas(|texts|)
  {
    forall t | t in texts ensures |QuotedText(t)| == Quoted(t) {
      QuotedLength(t);
    }
    JoinedLength(texts, QuotedText, (t: string) => Quoted(t));
  }

  function OptionText(o: Option<string>): string {
    if o.None? then "null" else QuotedText(o.value)
  }

  function BoolText(b: bool): string {
    if b then "true" else "false"
  }

  // ---- Rows

  function ReasonText(name: string, reason: string): string {
    "{\"" + name + "\":{\"reason\":" + QuotedText(reason) + "}}"
  }

  function StatusText(s: Status): string {
    match s
    case Queued => "\"Queued\""
    case WaitingBody => "\"WaitingBody\""
    case WaitingCapacity => "\"WaitingCapacity\""
    case Running => "\"Running\""
    case Done(exit) => "{\"Done\":{\"exit\":" + IntText(exit) + "}}"
    case Denied(reason) => ReasonText("Denied", reason)
    case Failed(reason) => ReasonText("Failed", reason)
    case Uncertain(reason) => ReasonText("Uncertain", reason)
  }

  lemma StatusLength(s: Status)
    ensures |StatusText(s)| == StatusLen(s)
  {
    match s
    case Done(exit) => IntLength(exit);
    case Denied(reason) => QuotedLength(reason);
    case Failed(reason) => QuotedLength(reason);
    case Uncertain(reason) => QuotedLength(reason);
    case _ =>
  }

  function JobText(j: Job): string {
    "{\"id\":" + QuotedText(j.id) + ",\"body\":" + QuotedText(j.body) + ",\"argv\":" + StringsText(j.argv)
    + ",\"from\":" + QuotedText(j.from) + ",\"status\":" + StatusText(j.status)
    + ",\"stdout\":" + BytesText(j.stdout) + ",\"stderr\":" + BytesText(j.stderr) + "}"
  }

  lemma JobLength(j: Job)
    ensures |JobText(j)| == JobRow(j) + JobPayload(j)
  {
    QuotedLength(j.id);
    QuotedLength(j.body);
    QuotedLength(j.from);
    StringsLength(j.argv);
    StatusLength(j.status);
    PayloadIsArrayInner(j.stdout);
    PayloadIsArrayInner(j.stderr);
  }

  // ---- What the model has no text for

  /** The texts behind symbols: of keys, signatures and hashes, of what the model leaves out of a grant or a request,
      and of the records that it does not have. */
  datatype Texts = Texts(
    key: PublicKey -> string, signature: Signature -> seq<byte>, hash: Invocation -> string, digest: Digest -> string,
    trust: set<(string, PublicKey)> -> string, until: nat -> string, schedule: set<nat> -> string,
    suggested: Request -> string, secret: PublicKey -> string, unmodelled: string, legacy: string, pin: string)

  /** A hash is written as 64 hexadecimal digits, and a signature has 64 bytes. */
  ghost predicate Sized(x: Texts) {
    (forall k :: |x.hash(k)| == 64) && (forall d :: |x.digest(d)| == 64) && (forall s :: |x.signature(s)| == 64)
  }

  function HashText(hash: string): string {
    "\"" + hash + "\""
  }

  // ---- Facts, records and entries

  function OutputRefText(x: Texts, o: OutputRef): string {
    "{\"bytes\":" + Decimal(o.bytes) + ",\"sha256\":" + HashText(x.digest(o.digest)) + "}"
  }

  function RoleText(r: Role): string {
    if r.Origin? then "\"origin\"" else "\"runner\""
  }

  function FactText(x: Texts, f: Fact): string {
    "{\"invocation\":" + HashText(x.hash(f.invocation)) + ",\"role\":" + RoleText(f.role)
    + ",\"revision\":" + Decimal(f.revision) + ",\"status\":" + StatusText(f.status)
    + ",\"stdout\":" + OutputRefText(x, f.stdout) + ",\"stderr\":" + OutputRefText(x, f.stderr) + "}"
  }

  lemma OutputRefLength(x: Texts, o: OutputRef)
    requires Sized(x)
    ensures |OutputRefText(x, o)| == OutputRefLen(o)
  {
    DecimalLength(o.bytes);
  }

  lemma FactLength(x: Texts, f: Fact)
    requires Sized(x)
    ensures |FactText(x, f)| == FactLen(f)
  {
    DecimalLength(f.revision);
    StatusLength(f.status);
    OutputRefLength(x, f.stdout);
    OutputRefLength(x, f.stderr);
  }

  function SignedFactText(x: Texts, f: Option<SignedFact>): string {
    if f.None? then "null" else
    "{\"fact\":" + FactText(x, f.value.fact) + ",\"signature\":" + BytesText(x.signature(f.value.signature)) + "}"
  }

  function InvocationText(x: Texts, i: Invocation): string {
    "{\"id\":" + QuotedText(i.id) + ",\"from\":" + QuotedText(i.from) + ",\"origin_key\":" + x.key(i.originKey)
    + ",\"body\":" + QuotedText(i.body) + ",\"runner_key\":" + x.key(i.runnerKey)
    + ",\"argv\":" + StringsText(i.argv) + ",\"retry_of\":" + OptionText(i.retryOf) + ",\"legacy_observer\":null}"
  }

  function CertificateText(x: Texts, c: Certificate): string {
    "{\"invocation\":" + InvocationText(x, c.invocation) + ",\"signature\":" + BytesText(x.signature(c.signature)) + "}"
  }

  function RecordText(x: Texts, r: Record): string {
    "{\"certificate\":" + CertificateText(x, r.certificate) + ",\"origin\":" + SignedFactText(x, r.origin)
    + ",\"runner\":" + SignedFactText(x, r.runner) + "}"
  }

  function CapturedText(o: Option<Captured>): string {
    if o.None? then "null" else
    "{\"stdout\":" + BytesText(o.value.stdout) + ",\"stderr\":" + BytesText(o.value.stderr) + "}"
  }

  function EntryText(x: Texts, e: Entry): string {
    "{\"record\":" + RecordText(x, e.record) + ",\"change\":" + Decimal(e.change)
    + ",\"output\":" + CapturedText(e.output) + "}"
  }

  // ---- Grants, and everything else

  function GrantHead(x: Texts, g: Grant): string {
    "{\"tool\":" + QuotedText(g.tool) + ",\"binary\":" + QuotedText(g.binary)
    + ",\"allow_from\":" + (if g.allowFrom.None? then "null" else StringsText(g.allowFrom.value))
    + ",\"once\":" + BoolText(g.once) + ",\"until\":" + (if g.until.None? then "null" else x.until(g.until.value))
    + ",\"schedule\":" + (if g.window.None? then "null" else x.schedule(g.window.value)) + ",\"reservation\":"
  }

  function GrantTail(g: Grant): string {
    (if g.args.None? then "" else ",\"args\":[" + Joined(g.args.value, StringsText) + "]") + "}"
  }

  function GrantText(x: Texts, g: Grant): string {
    GrantHead(x, g) + OptionText(g.reservation) + GrantTail(g)
  }

  function PeerText(x: Texts, p: Peer): string {
    "{\"name\":" + QuotedText(p.name) + ",\"owner_pk\":" + x.key(p.key) + ",\"addr\":" + OptionText(p.addr) + "}"
  }

  function RequestText(x: Texts, r: Request): string {
    "{\"id\":" + QuotedText(r.id) + ",\"from\":" + QuotedText(r.from) + ",\"tool\":" + QuotedText(r.tool)
    + ",\"once_suggested\":" + x.suggested(r) + "}"
  }

  function ProgressText(p: Progress): string {
    "{\"epoch\":" + QuotedText(p.epoch) + ",\"cursor\":" + Decimal(p.cursor) + ",\"high\":" + Decimal(p.high)
    + ",\"complete\":" + BoolText(p.complete) + ",\"unknown_authors\":" + BoolText(p.unknown) + "}"
  }

  /** An object with the keys in their order. */
  function MapText<V>(m: map<string, V>, text: V -> string): string {
    "{" + Joined(Sorted(m.Keys), k => QuotedText(k) + ":" + if k in m then text(m[k]) else "") + "}"
  }

  function BeforeGrants(x: Texts, o: Other): string {
    "{\"body_name\":" + QuotedText(o.name) + ",\"owner_sk\":" + x.secret(o.key)
    + ",\"peers\":[" + Joined(o.peers, (p: Peer) => PeerText(x, p)) + "],\"grants\":"
  }

  const BEFORE_JOBS: string := ",\"jobs\":"

  function BeforeClock(x: Texts, o: Other): string {
    ",\"requests\":[" + Joined(o.requests, (r: Request) => RequestText(x, r)) + "]," + x.unmodelled
    + ",\"history\":{\"initialized\":true,\"epoch\":" + QuotedText(o.epoch) + ",\"clock\":"
  }

  function BeforeEntries(x: Texts, o: Other): string {
    ",\"trust\":" + x.trust(o.trust) + ",\"entries\":"
  }

  function AfterEntries(x: Texts, o: Other): string {
    ",\"peers\":" + MapText(o.progress, ProgressText) + "},\"retry_links\":" + MapText(o.retryLinks, QuotedText)
    + ",\"job_certificates\":" + MapText(o.certs, (k: Invocation) => HashText(x.hash(k)))
    + ",\"legacy_jobs\":" + x.legacy + ",\"output_pruned\":"
  }

  const BEFORE_PRUNED: string := ",\"history_pruned\":"

  function Ending(x: Texts): string {
    ",\"format_version\":2,\"pin_enabled\":" + x.pin + "}"
  }

  function OtherLen(x: Texts, o: Other): nat {
    |BeforeGrants(x, o)| + |BEFORE_JOBS| + |BeforeClock(x, o)| + |BeforeEntries(x, o)| + |AfterEntries(x, o)|
    + |BEFORE_PRUNED| + |Ending(x)|
  }

  /** The lengths that `Encoding` leaves open, as these texts fix them. */
  function WidthsOf(x: Texts): Widths {
    Widths((o: Other) => OtherLen(x, o), (g: Grant) => |GrantHead(x, g)| + |GrantTail(g)|,
           (c: Certificate) => |CertificateText(x, c)|, (s: Signature) => |BytesText(x.signature(s))|)
  }

  lemma {:induction false} BytesLength(bytes: seq<byte>)
    ensures |BytesText(bytes)| <= if bytes == [] then 2 else 4 * |bytes| + 1
  {
    PayloadIsArrayInner(bytes);
    WidthsAtMostThree(bytes);
  }

  lemma {:induction false} WidthsAtMostThree(bytes: seq<byte>)
    ensures ByteWidths(bytes) <= 3 * |bytes|
  {
    if bytes != [] {
      WidthsAtMostThree(bytes[1..]);
    }
  }

  /** No signature takes more text than `Encoding` allows for. */
  lemma TextsArePlausible(x: Texts)
    requires Sized(x)
    ensures Plausible(WidthsOf(x))
  {
    forall s | true ensures |BytesText(x.signature(s))| <= SIGNATURE_LEN {
      BytesLength(x.signature(s));
    }
  }

  lemma GrantLength(x: Texts, g: Grant)
    ensures |GrantText(x, g)| == GrantLen(WidthsOf(x), g)
  {
    if g.reservation.Some? {
      QuotedLength(g.reservation.value);
    }
    var free := g.(reservation := None);
    assert GrantHead(x, free) == GrantHead(x, g) && GrantTail(free) == GrantTail(g);
  }

  lemma SignedFactLength(x: Texts, f: Option<SignedFact>)
    requires Sized(x)
    ensures |SignedFactText(x, f)| == SignedFactLen(WidthsOf(x), f)
  {
    if f.Some? {
      FactLength(x, f.value.fact);
    }
  }

  lemma RecordLength(x: Texts, r: Record)
    requires Sized(x)
    ensures |RecordText(x, r)| == RecordLen(WidthsOf(x), r)
  {
    SignedFactLength(x, r.origin);
    SignedFactLength(x, r.runner);
  }

  lemma CapturedLength(o: Option<Captured>)
    ensures |CapturedText(o)| == OutputLen(o) + if o.None? then NULL_LEN else 25
  {
    if o.Some? {
      PayloadIsArrayInner(o.value.stdout);
      PayloadIsArrayInner(o.value.stderr);
    }
  }

  lemma EntryLength(x: Texts, k: Invocation, e: Entry)
    requires Sized(x)
    ensures |HashText(x.hash(k)) + ":" + EntryText(x, e)| == EntryRow(WidthsOf(x), e) + OutputLen(e.output)
  {
    RecordLength(x, e.record);
    DecimalLength(e.change);
    CapturedLength(e.output);
  }

  // ---- The whole state

  /** The elements of a set one after another, in whatever order. */
  ghost predicate Lists<T(!new)>(list: seq<T>, all: set<T>) {
    && (forall x :: x in list <==> x in all)
    && forall i, j :: 0 <= i < j < |list| ==> list[i] != list[j]
  }

  lemma {:induction false} SumListed<T(!new)>(list: seq<T>, all: set<T>, f: T -> nat)
    requires Lists(list, all)
    ensures SumSeq(list, f) == Sum(all, f) && |list| == |all|
  {
    if list == [] {
      assert all == {};
    } else {
      var rest, x := list[1..], list[0];
      forall y | true ensures y in rest <==> y in all - {x} {
        assert list == [x] + rest;
      }
      SumListed(rest, all - {x}, f);
      SumTake(all, f, x);
    }
  }

  function EntryItem(x: Texts, entries: map<Invocation, Entry>): Invocation -> string {
    k => if k in entries then HashText(x.hash(k)) + ":" + EntryText(x, entries[k]) else ""
  }

  function HashItem(x: Texts): Invocation -> string {
    k => HashText(x.hash(k))
  }

  /** `serde_json::to_writer(store)`: the records in the order of their declaration; the two maps over hashes in the
      order of the hashes, given as lists. */
  function StateText(x: Texts, s: Store, entries: seq<Invocation>, pruned: seq<Invocation>): string {
    ControlText(x, s) + HistoryText(x, s, entries) + ReceiptsText(x, s, pruned)
  }

  function ControlText(x: Texts, s: Store): string {
    BeforeGrants(x, OtherOf(s)) + "[" + Joined(s.grants, (g: Grant) => GrantText(x, g)) + "]"
    + BEFORE_JOBS + "[" + Joined(s.jobs, JobText) + "]"
  }

  function HistoryText(x: Texts, s: Store, entries: seq<Invocation>): string {
    BeforeClock(x, OtherOf(s)) + Decimal(s.clock)
    + BeforeEntries(x, OtherOf(s)) + "{" + Joined(entries, EntryItem(x, s.entries)) + "}"
  }

  function ReceiptsText(x: Texts, s: Store, pruned: seq<Invocation>): string {
    AfterEntries(x, OtherOf(s)) + StringsText(Sorted(s.outputPruned))
    + BEFORE_PRUNED + "[" + Joined(pruned, HashItem(x)) + "]" + Ending(x)
  }

  lemma GrantsLength(x: Texts, grants: seq<Grant>)
    ensures |Joined(grants, (g: Grant) => GrantText(x, g))|
         == SumSeq(grants, GrantRow(WidthsOf(x))) + Commas(|grants|)
  {
    forall g | g in grants ensures |GrantText(x, g)| == GrantRow(WidthsOf(x))(g) {
      GrantLength(x, g);
    }
    JoinedLength(grants, (g: Grant) => GrantText(x, g), GrantRow(WidthsOf(x)));
  }

  lemma JobsLength(jobs: seq<Job>)
    ensures |Joined(jobs, JobText)|
         == SumSeq(jobs, (j: Job) => JobRow(j)) + SumSeq(jobs, (j: Job) => JobPayload(j)) + Commas(|jobs|)
  {
    var both := (j: Job) => JobRow(j) + JobPayload(j);
    forall j | j in jobs ensures |JobText(j)| == both(j) {
      JobLength(j);
    }
    JoinedLength(jobs, JobText, both);
    SumSeqPlus(jobs, (j: Job) => JobRow(j), (j: Job) => JobPayload(j), both);
  }

  function EntryItemLen(x: Texts, entries: map<Invocation, Entry>): Invocation -> nat {
    k => if k in entries then EntryRow(WidthsOf(x), entries[k]) + OutputLen(entries[k].output) else 0
  }

  lemma EntryItemsLength(x: Texts, entries: map<Invocation, Entry>, list: seq<Invocation>)
    requires Sized(x) && Lists(list, entries.Keys)
    ensures |Joined(list, EntryItem(x, entries))| == SumSeq(list, EntryItemLen(x, entries)) + Commas(|list|)
  {
    forall k | k in list ensures |EntryItem(x, entries)(k)| == EntryItemLen(x, entries)(k) {
      EntryLength(x, k, entries[k]);
    }
    JoinedLength(list, EntryItem(x, entries), EntryItemLen(x, entries));
  }

  lemma EntriesLength(x: Texts, entries: map<Invocation, Entry>, list: seq<Invocation>)
    requires Sized(x) && Lists(list, entries.Keys)
    ensures |Joined(list, EntryItem(x, entries))|
         == EntrySum(entries, (e: Entry) => EntryRow(WidthsOf(x), e))
            + EntrySum(entries, (e: Entry) => OutputLen(e.output)) + Commas(|entries|)
  {
    EntryItemsLength(x, entries, list);
    SumListed(list, entries.Keys, EntryItemLen(x, entries));
    EntrySums(WidthsOf(x), entries, EntryItemLen(x, entries));
    assert |entries| == |entries.Keys|;
  }

  lemma EntrySums(w: Widths, entries: map<Invocation, Entry>, both: Invocation -> nat)
    requires forall k :: k in entries ==> both(k) == EntryRow(w, entries[k]) + OutputLen(entries[k].output)
    ensures Sum(entries.Keys, both)
         == EntrySum(entries, (e: Entry) => EntryRow(w, e)) + EntrySum(entries, (e: Entry) => OutputLen(e.output))
  {
    SumPlus(entries.Keys, AtEntry(entries, (e: Entry) => EntryRow(w, e)),
            AtEntry(entries, (e: Entry) => OutputLen(e.output)), both);
  }

  lemma TextSetLength(texts: set<string>)
    ensures |StringsText(Sorted(texts))| == TextSetLen(texts)
  {
    var list := Sorted(texts);
    forall i, j | 0 <= i < j < |list| ensures list[i] != list[j] {
      LessIrreflexive(list[i]);
    }
    SumListed(list, texts, (t: string) => Quoted(t));
    StringsLength(list);
  }

  lemma HashSetLength(x: Texts, keys: set<Invocation>, list: seq<Invocation>)
    requires Sized(x) && Lists(list, keys)
    ensures 2 + |Joined(list, HashItem(x))| == HashSetLen(keys)
  {
    var each := (k: Invocation) => HASH_LEN;
    JoinedLength(list, HashItem(x), each);
    SumListed(list, keys, each);
    SumConstant(list, HASH_LEN);
  }

  lemma {:induction false} SumConstant<T>(list: seq<T>, n: nat)
    ensures SumSeq(list, (x: T) => n) == n * |list|
  {
    if list != [] {
      SumConstant(list[1..], n);
    }
  }

  /** The length that the limits and the charge are about is the length of the text that is saved. */
  lemma EncodedLenIsTextLength(x: Texts, s: Store, entries: seq<Invocation>, pruned: seq<Invocation>)
    requires Sized(x) && Lists(entries, s.entries.Keys) && Lists(pruned, s.historyPruned)
    ensures |StateText(x, s, entries, pruned)| == EncodedLen(WidthsOf(x), s)
  {
    ControlLength(x, s);
    HistoryLength(x, s, entries);
    ReceiptsLength(x, s, pruned);
  }

  lemma ControlLength(x: Texts, s: Store)
    ensures |ControlText(x, s)|
         == |BeforeGrants(x, OtherOf(s))| + 2 + SumSeq(s.grants, GrantRow(WidthsOf(x))) + Commas(|s.grants|)
            + |BEFORE_JOBS| + 2 + SumSeq(s.jobs, (j: Job) => JobRow(j)) + SumSeq(s.jobs, (j: Job) => JobPayload(j))
            + Commas(|s.jobs|)
  {
    GrantsLength(x, s.grants);
    JobsLength(s.jobs);
  }

  lemma HistoryLength(x: Texts, s: Store, entries: seq<Invocation>)
    requires Sized(x) && Lists(entries, s.entries.Keys)
    ensures |HistoryText(x, s, entries)|
         == |BeforeClock(x, OtherOf(s))| + Digits(s.clock) + |BeforeEntries(x, OtherOf(s))|
            + 2 + EntrySum(s.entries, (e: Entry) => EntryRow(WidthsOf(x), e))
            + EntrySum(s.entries, (e: Entry) => OutputLen(e.output)) + Commas(|s.entries|)
  {
    DecimalLength(s.clock);
    EntriesLength(x, s.entries, entries);
  }

  lemma ReceiptsLength(x: Texts, s: Store, pruned: seq<Invocation>)
    requires Sized(x) && Lists(pruned, s.historyPruned)
    ensures |ReceiptsText(x, s, pruned)|
         == |AfterEntries(x, OtherOf(s))| + TextSetLen(s.outputPruned) + |BEFORE_PRUNED| + HashSetLen(s.historyPruned)
            + |Ending(x)|
  {
    TextSetLength(s.outputPruned);
    HashSetLength(x, s.historyPruned, pruned);
  }

  // ---- The limits, about the text

  /** While the retained bytes are within their budget, the charge is at least the length of the text. */
  lemma ChargeBoundsText(x: Texts, s: Store, entries: seq<Invocation>, pruned: seq<Invocation>)
    requires Sized(x) && Lists(entries, s.entries.Keys) && Lists(pruned, s.historyPruned)
    requires OutputBytes(s) <= OUTPUT_BYTES
    ensures |StateText(x, s, entries, pruned)| <= Charge(WidthsOf(x), s)
  {
    EncodedLenIsTextLength(x, s, entries, pruned);
    Settlement.ChargeBoundsEncoding(WidthsOf(x), s);
  }

  /** Whatever an update commits is at most 128 MiB of text. */
  lemma CommittedTextFits(x: Texts, e: Store, s: Store, t: Store, entries: seq<Invocation>, pruned: seq<Invocation>)
    requires Sized(x) && Lists(entries, t.entries.Keys) && Lists(pruned, t.historyPruned)
    requires Update.Commit(WidthsOf(x), e, s) == Ok(t)
    ensures |StateText(x, t, entries, pruned)| <= STATE_BYTES
  {
    EncodedLenIsTextLength(x, t, entries, pruned);
    var r, n := Update.CommitStages(WidthsOf(x), e, s, t);
  }

  /** The room kept for a permanent receipt is the text of its ID and a comma. */
  lemma ReceiptRoom(x: Texts, pruned: set<string>, j: Job)
    ensures j.id !in pruned ==> JobReceiptLen(pruned, j) == |QuotedText(j.id) + ","|
  {
    QuotedLength(j.id);
  }
}
