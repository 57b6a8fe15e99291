/** Machines that publish, relay and learn signed facts in any order: author chains and convergence. */
module Network {
  import opened Types
  import opened History
  import opened Advance
  import opened Encoding
  import opened Storage
  import opened Retention
  import opened Update
  import opened Execution
  import opened Edits
  import opened Saves
  import opened Chains
  import Settlement

  // ---- One update

  /** The facts an update publishes are appended to their author's chains. */
  ghost function Logged(written: Written, t: Store): Written {
    x => if Owns(t.name, t.key, x) && Held(t.entries, x).Some? && Held(t.entries, x) != LastOf(written(x))
         then written(x) + [Held(t.entries, x).value] else written(x)
  }

  ghost predicate Received(written: Written, edit: Edit) {
    match edit
    case Learn(_, _, page) => forall i :: 0 <= i < |page.entries| ==> Carried(written, page.entries[i].record)
    case Reply(_, p) => Carried(written, p.record)
    case _ => true
  }

  /** What holds of a store whose own facts are all on its chains. */
  ghost predicate Follows(written: Written, s: Store) {
    Authentic(written, s.entries) && OwnKeys(s.name, s.key, s.entries)
  }

  ghost predicate Ahead(written: Written, s: Store) {
    Follows(written, s) && Leads(written, s.name, s.key, s.entries)
  }

  lemma IngestKeepsAhead(written: Written, s: Store, p: Published, t: Store)
    requires AllChains(written) && Ahead(written, s) && Carried(written, p.record) && Ingest(s, p) == Ok(t)
    ensures Ahead(written, t) && t.name == s.name && t.key == s.key
  {
    IngestFrame(s, p);
    IngestFollows(written, s, p, t);
    forall x | Owns(s.name, s.key, x) ensures Held(t.entries, x) == LastOf(written(x)) {
      OwnSlotsStay(written, s, p, t, x);
    }
  }

  lemma {:induction false} LearnKeepsAhead(written: Written, s: Store, entries: seq<Published>, unknown: bool, t: Store)
    requires AllChains(written) && Ahead(written, s)
    requires forall i :: 0 <= i < |entries| ==> Carried(written, entries[i].record)
    requires LearnAll(s, entries, unknown).Ok? && LearnAll(s, entries, unknown).value.0 == t
    ensures Ahead(written, t)
    decreases |entries|
  {
    if entries != [] {
      if AuthorsKnown(s, entries[0].record.certificate) {
        var u := Ingest(s, entries[0]).value;
        IngestKeepsAhead(written, s, entries[0], u);
        LearnKeepsAhead(written, u, entries[1..], unknown, t);
      } else {
        LearnKeepsAhead(written, s, entries[1..], true, t);
      }
    }
  }

  lemma SameHeld(written: Written, s: Store, t: Store)
    requires Ahead(written, s) && t.name == s.name && t.key == s.key && t.entries.Keys == s.entries.Keys
    requires forall k :: k in s.entries ==> t.entries[k].record == s.entries[k].record
    ensures Ahead(written, t)
  {
    forall x | true ensures Held(t.entries, x) == Held(s.entries, x) {
    }
  }

  lemma BindShape(s: Store, c: Certificate, t: Store)
    requires BindAdmission(s, c) == Ok(t)
    ensures t.name == s.name && t.key == s.key
    ensures t.entries == s.entries
         || (c.invocation !in s.entries
             && t.entries == s.entries[c.invocation := Entry(Record(c, None, None), t.clock, None)])
  {
  }

  lemma BindKeepsAhead(written: Written, s: Store, c: Certificate, t: Store)
    requires Ahead(written, s) && ValidInvocation(s, c) && BindAdmission(s, c) == Ok(t)
    ensures Ahead(written, t) && t.name == s.name && t.key == s.key
  {
    BindShape(s, c, t);
    forall x | true ensures Held(t.entries, x) == Held(s.entries, x) {
    }
  }

  lemma SubmitKeepsAhead(written: Written, s: Store, c: Call, now: Now, permit: bool, id: string, a: Accepted)
    requires Ahead(written, s) && c.argv != [] && SubmitEdit(s, c, now, permit, id) == Ok(a)
    requires c.certificate.Some? ==> ValidInvocation(s, c.certificate.value)
    ensures Ahead(written, a.store)
  {
    var t := SubmitShape(s, c, now, permit, id, a);
    if c.certificate.Some? {
      BindKeepsAhead(written, s, c.certificate.value, t);
    }
  }

  lemma ReplyKeepsAhead(written: Written, s: Store, peer: string, p: Published, t: Store)
    requires AllChains(written) && Ahead(written, s) && Carried(written, p.record)
    requires AcceptRunnerReply(s, peer, p) == Ok(t)
    ensures Ahead(written, t)
  {
    ReplyShape(s, peer, p);
    if t != s {
      IngestKeepsAhead(written, s, p, Ingest(s, p).value);
    }
  }

  lemma DiscardKeepsAhead(written: Written, s: Store, keep: nat, t: Store)
    requires Ahead(written, s) && Storage.Prune(s, keep) == Ok(t)
    ensures Ahead(written, t)
  {
    PruneDropsOutput(s, keep, t);
    SameHeld(written, s, t);
  }

  /** No edit moves this machine's own facts, and what it learns was written by its authors. */
  lemma EditKeepsAhead(written: Written, s: Store, edit: Edit, e: Store)
    requires AllChains(written) && Ahead(written, s) && Fair(s, edit) && Received(written, edit)
    requires Apply(s, edit) == Ok(e)
    ensures Ahead(written, e)
  {
    match edit
    case Learn(peer, asked, page) =>
      var unknown := !page.reset && asked.unknown;
      LearnKeepsAhead(written, s, page.entries, unknown, LearnAll(s, page.entries, unknown).value.0);
    case Reply(peer, p) => ReplyKeepsAhead(written, s, peer, p, e);
    case Submit(c, now, permit, id) =>
      SubmitKeepsAhead(written, s, c, now, permit, id, SubmitEdit(s, c, now, permit, id).value);
    case Discard(keep) => DiscardKeepsAhead(written, s, keep, e);
    case _ => OtherFrame(s, edit, e);
  }

  lemma LoggedChains(written: Written, e: Store, t: Store)
    requires AllChains(written) && Ahead(written, e) && t.name == e.name && t.key == e.key
    requires Wrote(e.name, e.key, e.entries, t.entries) && Certificates(t.name, t.key, t.entries)
    ensures AllChains(Logged(written, t)) && Ahead(Logged(written, t), t)
  {
    var after := Logged(written, t);
    forall x | true
      ensures IsChain(x, after(x))
      ensures Owns(t.name, t.key, x) ==> Held(t.entries, x) == LastOf(after(x))
      ensures Held(t.entries, x).Some? ==> Held(t.entries, x).value in after(x)
    {
      assert NextFact(x, Held(e.entries, x), Held(t.entries, x)) && IsChain(x, written(x));
      if Owns(t.name, t.key, x) && Held(t.entries, x) != Held(e.entries, x) {
        LongerChain(x, written(x), Held(t.entries, x).value);
      }
    }
  }

  lemma LongerChain(x: Slot, facts: seq<SignedFact>, f: SignedFact)
    requires IsChain(x, facts) && NextFact(x, LastOf(facts), Some(f)) && Some(f) != LastOf(facts)
    ensures IsChain(x, facts + [f])
  {
  }

  lemma CommitWrote(w: Widths, written: Written, s: Store, e: Store, t: Store)
    requires GoodStore(s) && GoodEdit(s, e) && Commit(w, e, s) == Ok(t) && Ahead(written, e)
    ensures Wrote(e.name, e.key, e.entries, t.entries) && Certificates(t.name, t.key, t.entries)
    ensures t.name == e.name && t.key == e.key
  {
    var r, n := CommitStages(w, e, s, t);
    RefreshWrote(e, s, r);
    SavedRecords(w, e, s, r, n, t);
    RecordsCarryOver(e.name, e.key, e.entries, r.entries, t.entries);
  }

  lemma RefreshWrote(e: Store, s: Store, r: Store)
    requires GoodEdit(s, e) && Certificates(e.name, e.key, e.entries) && RefreshOwned(e, s) == Ok(r)
    ensures Wrote(e.name, e.key, e.entries, r.entries) && Certificates(e.name, e.key, r.entries)
  {
    var changed := ChangedJobs(e.jobs, s.jobs);
    ChangedAreFresh(e, s, changed);
    PublishJobsSlots(WithTrust(e), s.jobs, changed, r);
  }

  /** Normalizing and evicting leave every record as it was published. */
  lemma SavedRecords(w: Widths, e: Store, s: Store, r: Store, n: Store, t: Store)
    requires GoodStore(s) && GoodEdit(s, e)
    requires RefreshOwned(e, s) == Ok(r) && n == NormalizeOutput(r) && Evict(n) == Ok(t)
    ensures t.entries.Keys == r.entries.Keys && t.name == e.name && t.key == e.key
    ensures forall k :: k in r.entries ==> t.entries[k].record == r.entries[k].record
  {
    PublishKeeps(e, s, r);
    Settlement.RecordsSaved(w, r, n, t);
  }

  lemma RecordsCarryOver(name: string, key: PublicKey, e: Entries, r: Entries, t: Entries)
    requires Wrote(name, key, e, r) && Certificates(name, key, r) && t.Keys == r.Keys
    requires forall k :: k in r ==> t[k].record == r[k].record
    ensures Wrote(name, key, e, t) && Certificates(name, key, t)
  {
    forall x | true ensures Held(t, x) == Held(r, x) {
    }
    assert forall x :: NextFact(x, Held(e, x), Held(r, x));
  }

  lemma CommitLogs(w: Widths, written: Written, s: Store, edit: Edit, t: Store)
    requires AllChains(written) && GoodStore(s) && Ahead(written, s)
    requires Received(written, edit) && Committed(w, s, edit, t)
    ensures AllChains(Logged(written, t)) && Ahead(Logged(written, t), t) && t.name == s.name && t.key == s.key
  {
    var e := Apply(s, edit).value;
    EveryEditIsGood(s, edit, e);
    EditKeepsAhead(written, s, edit, e);
    CommitWrote(w, written, s, e, t);
    LoggedChains(written, e, t);
  }

  // ---- The network

  datatype Net = Net(machines: map<string, Machine>, wire: set<SignedFact>, written: Written)

  datatype NetAct = At(name: string, act: Act) | Send(name: string, key: Invocation)

  ghost predicate OnWire(wire: set<SignedFact>, r: Record) {
    forall role :: FactIn(r, role).Some? ==> FactIn(r, role).value.signature.Forged? || FactIn(r, role).value in wire
  }

  /** A machine only learns records put together from facts that were sent, or forged ones. */
  ghost predicate Heard(wire: set<SignedFact>, act: Act) {
    act.Perform? ==>
      match act.edit
      case Learn(_, _, page) => forall i :: 0 <= i < |page.entries| ==> OnWire(wire, page.entries[i].record)
      case Reply(_, p) => OnWire(wire, p.record)
      case _ => true
  }

  function Facts(r: Record): set<SignedFact> {
    (if r.origin.Some? then {r.origin.value} else {}) + (if r.runner.Some? then {r.runner.value} else {})
  }

  ghost predicate NetStep(w: Widths, n: Net, act: NetAct, n': Net) {
    && act.name in n.machines
    && var m := n.machines[act.name];
       match act
       case Send(name, key) =>
         key in m.mem.entries && n' == n.(wire := n.wire + Facts(m.mem.entries[key].record))
       case At(name, a) =>
         && Heard(n.wire, a) && n'.wire == n.wire
         && n'.machines.Keys == n.machines.Keys && n'.machines == n.machines[name := n'.machines[name]]
         && Acts(w, m, a, n'.machines[name])
         && n'.written == if n'.machines[name].disk == m.disk then n.written
                         else Logged(n.written, n'.machines[name].disk)
  }

  ghost predicate MachineOk(written: Written, name: string, m: Machine) {
    && Steady(m) && m.mem.name == name && Follows(written, m.mem) && Ahead(written, m.disk)
  }

  ghost predicate Sent(written: Written, wire: set<SignedFact>) {
    forall f :: f in wire ==> f in written(Slot(f.fact.invocation, f.fact.role))
  }

  ghost predicate NetOk(n: Net) {
    && AllChains(n.written)
    && Sent(n.written, n.wire)
    && (forall name :: name in n.machines ==> MachineOk(n.written, name, n.machines[name]))
  }

  ghost predicate Grown(before: Written, after: Written) {
    forall x :: before(x) <= after(x)
  }

  lemma GrownMembers(before: Written, after: Written, x: Slot, f: SignedFact)
    requires Grown(before, after) && f in before(x)
    ensures f in after(x)
  {
    assert before(x) <= after(x);
    var i :| 0 <= i < |before(x)| && before(x)[i] == f;
    assert after(x)[i] == f;
  }

  lemma LoggedGrows(written: Written, t: Store)
    ensures Grown(written, Logged(written, t))
  {
  }

  lemma StillFollows(before: Written, after: Written, s: Store)
    requires Grown(before, after) && Follows(before, s)
    ensures Follows(after, s)
  {
    forall x | Held(s.entries, x).Some? ensures Held(s.entries, x).value in after(x) {
      GrownMembers(before, after, x, Held(s.entries, x).value);
    }
  }

  lemma StillAhead(written: Written, t: Store, s: Store)
    requires Ahead(written, s) && s.name != t.name
    ensures Ahead(Logged(written, t), s)
  {
    LoggedGrows(written, t);
    StillFollows(written, Logged(written, t), s);
    forall x | Owns(s.name, s.key, x) ensures Logged(written, t)(x) == written(x) {
      assert !Owns(t.name, t.key, x);
    }
  }

  lemma WireIsCarried(written: Written, wire: set<SignedFact>, r: Record)
    requires Sent(written, wire) && OnWire(wire, r)
    ensures Carried(written, r)
  {
  }

  lemma HeardIsReceived(written: Written, wire: set<SignedFact>, edit: Edit, save: Save)
    requires Sent(written, wire) && Heard(wire, Perform(edit, save))
    ensures Received(written, edit)
  {
    match edit
    case Learn(_, _, page) =>
      forall i | 0 <= i < |page.entries| ensures Carried(written, page.entries[i].record) {
        WireIsCarried(written, wire, page.entries[i].record);
      }
    case Reply(_, p) => WireIsCarried(written, wire, p.record);
    case _ =>
  }

  /** What a machine relays is on its author's chain. */
  lemma RelayedIsWritten(written: Written, s: Store, key: Invocation, f: SignedFact)
    requires AllChains(written) && Follows(written, s) && key in s.entries && f in Facts(s.entries[key].record)
    ensures f in written(Slot(f.fact.invocation, f.fact.role))
  {
    var role :| FactIn(s.entries[key].record, role) == Some(f) by {
      assert FactIn(s.entries[key].record, Origin) == Some(f) || FactIn(s.entries[key].record, Runner) == Some(f);
    }
    var x := Slot(key, role);
    assert Held(s.entries, x) == Some(f);
    var i := ChainPlace(x, written(x), f);
  }

  lemma MarkSame(s: Store, i: nat, reason: string, t: Store)
    requires Marked(s, i, reason, t)
    ensures t.entries == s.entries && t.name == s.name && t.key == s.key
  {
  }

  ghost predicate Histories(written: Written, name: string, m: Machine) {
    && m.mem.name == name && m.disk.name == name && Follows(written, m.mem) && Ahead(written, m.disk)
    && (!m.poisoned ==> Ahead(written, m.mem))
  }

  lemma MachineHistories(written: Written, name: string, m: Machine)
    requires Steady(m)
    ensures MachineOk(written, name, m) <==> Histories(written, name, m)
  {
  }

  lemma SaveKeepsHistories(written: Written, name: string, m: Machine, t: Store, save: Save, after: Written)
    requires AllChains(written) && Histories(written, name, m) && !m.poisoned && t.name == name
    requires AllChains(Logged(written, t)) && Ahead(Logged(written, t), t)
    requires t == m.disk ==> Ahead(written, t)
    requires after == if AfterSave(m, t, save).disk == m.disk then written else Logged(written, t)
    ensures AllChains(after) && Histories(after, name, AfterSave(m, t, save)) && Grown(written, after)
  {
    LoggedGrows(written, t);
    StillFollows(written, Logged(written, t), m.mem);
  }

  lemma PerformKeepsMachine(w: Widths, n: Net, name: string, edit: Edit, save: Save, m': Machine, after: Written)
    requires NetOk(n) && name in n.machines && Heard(n.wire, Perform(edit, save)) && Fair(n.machines[name].mem, edit)
    requires m' == UpdateWith(w, n.machines[name], Apply(n.machines[name].mem, edit), save).0
    requires after == if m'.disk == n.machines[name].disk then n.written else Logged(n.written, m'.disk)
    ensures AllChains(after) && Histories(after, name, m') && Grown(n.written, after)
  {
    var m := n.machines[name];
    assert MachineOk(n.written, name, m);
    MachineHistories(n.written, name, m);
    var t := UpdateCommits(w, m, edit, save);
    if m' != m {
      HeardIsReceived(n.written, n.wire, edit, save);
      CommitLogs(w, n.written, m.mem, edit, t);
      SaveKeepsHistories(n.written, name, m, t, save, after);
    }
  }

  /** The machine that acts: a durable change is an update whose facts the log has taken. */
  lemma ActKeepsMachine(w: Widths, n: Net, name: string, a: Act, m': Machine, after: Written)
    requires NetOk(n) && name in n.machines && Heard(n.wire, a) && Acts(w, n.machines[name], a, m')
    requires after == if m'.disk == n.machines[name].disk then n.written else Logged(n.written, m'.disk)
    ensures AllChains(after) && MachineOk(after, name, m') && Grown(n.written, after)
  {
    var m := n.machines[name];
    assert MachineOk(n.written, name, m);
    MachineHistories(n.written, name, m);
    ActKeepsSteady(w, m, a, m');
    match a
    case Perform(edit, save) => PerformKeepsMachine(w, n, name, edit, save, m', after);
    case Mark(row, reason) => MarkSame(m.mem, row, reason, m'.mem);
    case _ =>
    MachineHistories(after, name, m');
  }

  lemma OthersKeep(n: Net, name: string, t: Store, other: string)
    requires NetOk(n) && other in n.machines && other != name && t.name == name
    ensures MachineOk(Logged(n.written, t), other, n.machines[other])
  {
    LoggedGrows(n.written, t);
    assert MachineOk(n.written, other, n.machines[other]);
    StillFollows(n.written, Logged(n.written, t), n.machines[other].mem);
    StillAhead(n.written, t, n.machines[other].disk);
  }

  lemma SpreadKeeps(n: Net, name: string, m': Machine, after: Written, n': Net)
    requires NetOk(n) && name in n.machines
    requires AllChains(after) && MachineOk(after, name, m') && Grown(n.written, after)
    requires after == if m'.disk == n.machines[name].disk then n.written else Logged(n.written, m'.disk)
    requires n' == Net(n.machines[name := m'], n.wire, after)
    ensures NetOk(n')
  {
    WireKeeps(n, after);
    forall other | other in n.machines && other != name ensures MachineOk(after, other, n.machines[other]) {
      OtherSpreads(n, name, m', after, other);
    }
  }

  lemma OtherSpreads(n: Net, name: string, m': Machine, after: Written, other: string)
    requires NetOk(n) && name in n.machines && other in n.machines && other != name && m'.disk.name == name
    requires after == if m'.disk == n.machines[name].disk then n.written else Logged(n.written, m'.disk)
    ensures MachineOk(after, other, n.machines[other])
  {
    if m'.disk == n.machines[name].disk {
      assert MachineOk(n.written, other, n.machines[other]);
    } else {
      OthersKeep(n, name, m'.disk, other);
    }
  }

  lemma WireKeeps(n: Net, after: Written)
    requires NetOk(n) && Grown(n.written, after)
    ensures forall f :: f in n.wire ==> f in after(Slot(f.fact.invocation, f.fact.role))
  {
    forall f | f in n.wire ensures f in after(Slot(f.fact.invocation, f.fact.role)) {
      GrownMembers(n.written, after, Slot(f.fact.invocation, f.fact.role), f);
    }
  }

  lemma AtKeeps(w: Widths, n: Net, name: string, a: Act, n': Net)
    requires NetOk(n) && NetStep(w, n, At(name, a), n')
    ensures NetOk(n') && Grown(n.written, n'.written)
  {
    ActKeepsMachine(w, n, name, a, n'.machines[name], n'.written);
    SpreadKeeps(n, name, n'.machines[name], n'.written, n');
  }

  lemma NetStepKeeps(w: Widths, n: Net, act: NetAct, n': Net)
    requires NetOk(n) && NetStep(w, n, act, n')
    ensures NetOk(n') && Grown(n.written, n'.written)
  {
    match act
    case At(name, a) => AtKeeps(w, n, name, a, n');
    case Send(name, key) =>
      forall f | f in n'.wire ensures f in n'.written(Slot(f.fact.invocation, f.fact.role)) {
        if f !in n.wire {
          assert MachineOk(n.written, name, n.machines[name]);
          RelayedIsWritten(n.written, n.machines[name].mem, key, f);
        }
      }
  }

  // ---- Every run

  /** New machines: nothing signed yet, nothing sent. */
  ghost predicate NetInit(n: Net) {
    && n.wire == {} && (forall x :: n.written(x) == [])
    && forall name :: name in n.machines ==>
         var m := n.machines[name];
         m.mem == m.disk && m.mem.name == name && GoodStore(m.mem) && m.mem.entries == map[]
  }

  ghost predicate NetRun(w: Widths, nets: seq<Net>, acts: seq<NetAct>) {
    && |nets| == |acts| + 1 && NetInit(nets[0])
    && forall i {:trigger acts[i]} :: 0 <= i < |acts| ==> NetStep(w, nets[i], acts[i], nets[i + 1])
  }

  lemma InitOk(n: Net)
    requires NetInit(n)
    ensures NetOk(n)
  {
    forall name | name in n.machines ensures MachineOk(n.written, name, n.machines[name]) {
      AdvancesReflexive(n.machines[name].mem);
    }
  }

  /** Over every run: each author's durable facts of one slot are revisions 1, 2, 3, … with only the
      last terminal, and nothing on the wire or in any machine's memory or file comes from anywhere
      else. Crashes, saves with an unknown result and relayed old facts do not change that. */
  lemma {:induction false} RunsKeepChains(w: Widths, nets: seq<Net>, acts: seq<NetAct>, i: nat)
    requires NetRun(w, nets, acts) && i < |nets|
    ensures NetOk(nets[i])
    decreases i
  {
    if i == 0 {
      InitOk(nets[0]);
    } else {
      RunsKeepChains(w, nets, acts, i - 1);
      assert NetStep(w, nets[i - 1], acts[i - 1], nets[i - 1 + 1]);
      NetStepKeeps(w, nets[i - 1], acts[i - 1], nets[i]);
    }
  }

  /** A fact of one slot that is in some machine's memory or file, or was sent. */
  ghost predicate Found(n: Net, x: Slot, f: SignedFact) {
    || (f in n.wire && x == Slot(f.fact.invocation, f.fact.role))
    || exists name :: name in n.machines
         && Some(f) in {Held(n.machines[name].mem.entries, x), Held(n.machines[name].disk.entries, x)}
  }

  lemma FoundIsWritten(n: Net, x: Slot, f: SignedFact)
    requires NetOk(n) && Found(n, x, f)
    ensures f in n.written(x)
  {
    if !(f in n.wire && x == Slot(f.fact.invocation, f.fact.role)) {
      var name :| name in n.machines
        && Some(f) in {Held(n.machines[name].mem.entries, x), Held(n.machines[name].disk.entries, x)};
      assert MachineOk(n.written, name, n.machines[name]);
    }
  }

  lemma GrownTransitive(a: Written, b: Written, c: Written)
    requires Grown(a, b) && Grown(b, c)
    ensures Grown(a, c)
  {
    forall x | true ensures a(x) <= c(x) {
      assert a(x) <= b(x) <= c(x);
    }
  }

  lemma StepGrows(w: Widths, nets: seq<Net>, acts: seq<NetAct>, i: nat)
    requires NetRun(w, nets, acts) && i < |acts|
    ensures Grown(nets[i].written, nets[i + 1].written)
  {
    RunsKeepChains(w, nets, acts, i);
    assert NetStep(w, nets[i], acts[i], nets[i + 1]);
    NetStepKeeps(w, nets[i], acts[i], nets[i + 1]);
  }

  lemma {:induction false} LogsGrow(w: Widths, nets: seq<Net>, acts: seq<NetAct>, i: nat, j: nat)
    requires NetRun(w, nets, acts) && i <= j < |nets|
    ensures Grown(nets[i].written, nets[j].written)
    decreases j
  {
    if i < j {
      LogsGrow(w, nets, acts, i, j - 1);
      StepGrows(w, nets, acts, j - 1);
      GrownTransitive(nets[i].written, nets[j - 1].written, nets[j].written);
    }
  }

  /** Two different facts of one slot never carry the same revision, and a terminal one is followed by none, wherever
      in the network and whenever in its run they are found. */
  lemma NoForks(w: Widths, nets: seq<Net>, acts: seq<NetAct>, i: nat, j: nat, x: Slot, f: SignedFact, g: SignedFact)
    requires NetRun(w, nets, acts) && i < |nets| && j < |nets| && Found(nets[i], x, f) && Found(nets[j], x, g)
    ensures f.fact.revision == g.fact.revision ==> f == g
    ensures f.fact.revision < g.fact.revision ==> !IsTerminal(f.fact.status)
  {
    var last := |acts|;
    LogsGrow(w, nets, acts, i, last);
    LogsGrow(w, nets, acts, j, last);
    RunsKeepChains(w, nets, acts, i);
    RunsKeepChains(w, nets, acts, j);
    RunsKeepChains(w, nets, acts, last);
    FoundIsWritten(nets[i], x, f);
    FoundIsWritten(nets[j], x, g);
    var written := nets[last].written;
    GrownMembers(nets[i].written, written, x, f);
    GrownMembers(nets[j].written, written, x, g);
    var a := ChainPlace(x, written(x), f);
    var b := ChainPlace(x, written(x), g);
  }

  // ---- Convergence

  /** The facts shown for one slot. */
  ghost function Shown(items: seq<Published>, x: Slot): set<SignedFact> {
    set p | p in items && p.record.certificate.invocation == x.key && FactIn(p.record, x.role).Some?
      :: FactIn(p.record, x.role).value
  }

  /** b is the highest revision among what was held and what was shown. */
  ghost predicate IsTop(b: Option<SignedFact>, a: Option<SignedFact>, shown: set<SignedFact>) {
    && (b.None? <==> a.None? && shown == {})
    && (b.Some? ==> b == a || b.value in shown)
    && (b.Some? && a.Some? ==> a.value.fact.revision <= b.value.fact.revision)
    && (forall f :: f in shown ==> b.Some? && f.fact.revision <= b.value.fact.revision)
  }

  /** Items this machine can use: by known authors, valid, and written by those authors. */
  ghost predicate Usable(written: Written, s: Store, items: seq<Published>) {
    forall i :: 0 <= i < |items| ==>
      AuthorsKnown(s, items[i].record.certificate) && ValidPublished(s, items[i]) && Carried(written, items[i].record)
  }

  lemma IngestIsTop(written: Written, s: Store, items: seq<Published>, u: Store, t: Store)
    requires AllChains(written) && Follows(written, s) && items != [] && Usable(written, s, items)
    requires Ingest(s, items[0]) == Ok(u)
    requires forall x :: IsTop(Held(t.entries, x), Held(u.entries, x), Shown(items[1..], x))
    ensures forall x :: IsTop(Held(t.entries, x), Held(s.entries, x), Shown(items, x))
  {
    var p := items[0];
    IngestFollows(written, s, p, u);
    forall x | true ensures IsTop(Held(t.entries, x), Held(s.entries, x), Shown(items, x)) {
      ShownFirst(items, x);
      assert IsTop(Held(t.entries, x), Held(u.entries, x), Shown(items[1..], x));
    }
  }

  lemma ShownFirst(items: seq<Published>, x: Slot)
    requires items != []
    ensures var r := items[0].record;
      Shown(items, x) == Shown(items[1..], x)
        + if r.certificate.invocation == x.key && FactIn(r, x.role).Some? then {FactIn(r, x.role).value} else {}
  {
    var p := items[0];
    assert items == [p] + items[1..];
    assert Shown(items, x) == Shown([p], x) + Shown(items[1..], x);
    if p.record.certificate.invocation == x.key && FactIn(p.record, x.role).Some? {
      assert p in [p];
      assert Shown([p], x) == {FactIn(p.record, x.role).value};
    } else {
      assert Shown([p], x) == {};
    }
  }

  /** Learning any list of genuine items succeeds and leaves the highest revision in every slot. */
  lemma {:induction false} LearningReachesTop(written: Written, s: Store, items: seq<Published>, unknown: bool)
    returns (t: Store)
    requires AllChains(written) && Follows(written, s) && Usable(written, s, items) && s.clock + |items| <= MAX_U64
    ensures LearnAll(s, items, unknown) == Ok((t, unknown)) && Follows(written, t)
    ensures forall x :: IsTop(Held(t.entries, x), Held(s.entries, x), Shown(items, x))
    ensures forall k :: k in t.entries <==>
      k in s.entries || exists p :: p in items && p.record.certificate.invocation == k
    decreases |items|
  {
    if items == [] {
      t := s;
      assert forall x :: Shown(items, x) == {};
    } else {
      var p := items[0];
      assert ValidPublished(s, items[0]) && Carried(written, items[0].record);
      IngestFailsIff(written, s, p);
      var u := Ingest(s, p).value;
      IngestFrame(s, p);
      IngestFollows(written, s, p, u);
      IngestClock(s, p, u);
      assert Usable(written, u, items[1..]) by {
        forall i | 0 <= i < |items[1..]|
          ensures ValidPublished(u, items[1..][i]) && AuthorsKnown(u, items[1..][i].record.certificate)
        {
          assert items[1..][i] == items[i + 1];
        }
      }
      t := LearningReachesTop(written, u, items[1..], unknown);
      IngestIsTop(written, s, items, u, t);
      assert items == [p] + items[1..];
    }
  }

  lemma IngestClock(s: Store, p: Published, t: Store)
    requires Ingest(s, p) == Ok(t)
    ensures t.clock <= s.clock + 1
  {
  }

  /** Two machines that were shown the same facts hold the same record, whatever the order, the
      repetitions and the neighbours they came through. */
  lemma SameFactsSameRecord(written: Written, a: Store, ap: seq<Published>, b: Store, bp: seq<Published>, k: Invocation)
    returns (a': Store, b': Store)
    requires AllChains(written)
    requires Follows(written, a) && Usable(written, a, ap) && a.clock + |ap| <= MAX_U64
    requires Follows(written, b) && Usable(written, b, bp) && b.clock + |bp| <= MAX_U64
    requires forall role :: Known(a, ap, Slot(k, role)) == Known(b, bp, Slot(k, role))
    ensures LearnAll(a, ap, false) == Ok((a', false)) && LearnAll(b, bp, false) == Ok((b', false))
    ensures k in a'.entries && k in b'.entries ==> a'.entries[k].record == b'.entries[k].record
  {
    a' := LearningReachesTop(written, a, ap, false);
    b' := LearningReachesTop(written, b, bp, false);
    if k in a'.entries && k in b'.entries {
      forall role: Role | true ensures FactIn(a'.entries[k].record, role) == FactIn(b'.entries[k].record, role) {
        TopIsUnique(written, Slot(k, role), a, ap, a', b, bp, b');
      }
      assert a'.entries[k].record.origin == FactIn(a'.entries[k].record, Origin) == b'.entries[k].record.origin;
      assert a'.entries[k].record.runner == FactIn(a'.entries[k].record, Runner) == b'.entries[k].record.runner;
    }
  }

  ghost function Known(s: Store, items: seq<Published>, x: Slot): set<SignedFact> {
    (if Held(s.entries, x).Some? then {Held(s.entries, x).value} else {}) + Shown(items, x)
  }

  lemma TopIsUnique(written: Written, x: Slot, a: Store, ap: seq<Published>, a': Store,
                    b: Store, bp: seq<Published>, b': Store)
    requires AllChains(written) && Follows(written, a') && Follows(written, b')
    requires IsTop(Held(a'.entries, x), Held(a.entries, x), Shown(ap, x))
    requires IsTop(Held(b'.entries, x), Held(b.entries, x), Shown(bp, x))
    requires Known(a, ap, x) == Known(b, bp, x)
    ensures Held(a'.entries, x) == Held(b'.entries, x)
  {
    var f, g := Held(a'.entries, x), Held(b'.entries, x);
    assert f.Some? ==> f.value in Known(a, ap, x);
    assert g.Some? ==> g.value in Known(b, bp, x);
    if f.Some? && g.Some? {
      var i := ChainPlace(x, written(x), f.value);
      var j := ChainPlace(x, written(x), g.value);
    }
  }
}
