/** Bounded retention (src/storage.rs): which payloads may go, in which order, and what removing one
    does to the store and to its capacity charge. */
module Storage {
  import opened Types
  import opened History
  import opened Advance
  import opened Encoding

  /** The job whose captured bytes the invocation owns, as an index; the length stands for "none".
      Only finished jobs with a published fact qualify. */
  function LocalIndex(s: Store, k: Invocation): (i: nat)
    ensures i <= |s.jobs|
  {
    var i := JobIndex(s.jobs, k.id);
    if i < |s.jobs| && HoldsLocal(s, s.jobs[i], k) then i else |s.jobs|
  }

  predicate HoldsLocal(s: Store, j: Job, k: Invocation) {
    && JobBytes(j) > 0 && IsTerminal(j.status)
    && j.id in s.certs && s.certs[j.id] == k
    && k in s.entries && s.entries[k].record.Selected().Some?
  }

  predicate HoldsReplica(s: Store, k: Invocation) {
    && k in s.entries && RetainedBytes(s.entries[k].output) > 0
    && s.entries[k].record.Selected().Some?
    && IsTerminal(s.entries[k].record.Selected().value.fact.status)
  }

  predicate IsCandidate(s: Store, k: Invocation) {
    LocalIndex(s, k) < |s.jobs| || HoldsReplica(s, k)
  }

  function CandidateKeys(s: Store): set<Invocation> {
    set k | k in s.entries && IsCandidate(s, k)
  }

  function ClearJob(s: Store, k: Invocation): Store {
    var i := LocalIndex(s, k);
    if i == |s.jobs| then s else
    s.(jobs := s.jobs[i := s.jobs[i].(stdout := [], stderr := [])], outputPruned := s.outputPruned + {k.id})
  }

  /** `remove_payload` for the candidate of one invocation. */
  function RemovePayload(s: Store, k: Invocation): Result<Store>
    requires k in s.entries
  {
    var t :- NextChange(ClearJob(s, k));
    Ok(t.(entries := t.entries[k := t.entries[k].(output := None, change := t.clock)],
          historyPruned := t.historyPruned + {k}))
  }

  // ---- Oldest first

  ghost predicate IsLeast(entries: Entries, keys: set<Invocation>, k: Invocation)
    requires keys <= entries.Keys
  {
    k in keys && forall l :: l in keys ==> entries[k].change <= entries[l].change
  }

  lemma {:induction false} LeastExists(entries: Entries, keys: set<Invocation>)
    requires keys != {} && keys <= entries.Keys
    ensures exists k :: IsLeast(entries, keys, k)
    decreases keys
  {
    var x :| x in keys;
    if keys == {x} {
      assert IsLeast(entries, keys, x);
    } else {
      LeastExists(entries, keys - {x});
      var y :| IsLeast(entries, keys - {x}, y);
      assert IsLeast(entries, keys, if entries[x].change <= entries[y].change then x else y);
    }
  }

  /** The keys in the order of their entries' ages. */
  ghost function ByAge(entries: Entries, keys: set<Invocation>): (list: seq<Invocation>)
    requires keys <= entries.Keys
    ensures |list| == |keys| && (forall k :: k in list <==> k in keys)
    ensures forall i, j :: 0 <= i < j < |list| ==>
      entries[list[i]].change <= entries[list[j]].change && list[i] != list[j]
    decreases keys
  {
    if keys == {} then [] else
    LeastExists(entries, keys);
    var k :| IsLeast(entries, keys, k);
    [k] + ByAge(entries, keys - {k})
  }

  ghost function Candidates(s: Store): (list: seq<Invocation>)
    ensures forall k :: k in list <==> k in CandidateKeys(s)
    ensures |list| == |CandidateKeys(s)|
  {
    ByAge(s.entries, CandidateKeys(s))
  }

  lemma {:induction false} SameIds(jobs: seq<Job>, jobs': seq<Job>, id: string)
    requires |jobs| == |jobs'| && forall i :: 0 <= i < |jobs| ==> jobs'[i].id == jobs[i].id
    ensures JobIndex(jobs', id) == JobIndex(jobs, id)
  {
    if jobs != [] {
      SameIds(jobs[1..], jobs'[1..], id);
    }
  }

  lemma ClearedJob(s: Store, k: Invocation, l: Invocation)
    requires SoundCerts(s.entries, s.certs)
    ensures var t := ClearJob(s, k);
      && |t.jobs| == |s.jobs| && t.entries == s.entries && t.certs == s.certs
      && LocalIndex(t, l) == if l == k then |s.jobs| else LocalIndex(s, l)
  {
    var t := ClearJob(s, k);
    var i := LocalIndex(s, k);
    if i < |s.jobs| {
      SameIds(s.jobs, t.jobs, l.id);
      var m := JobIndex(s.jobs, l.id);
      assert m == |s.jobs| || m == i || t.jobs[m] == s.jobs[m];
    }
  }

  lemma RestampKeepsLocal(s: Store, t: Store, k: Invocation, l: Invocation)
    requires k in s.entries && t.jobs == s.jobs && t.certs == s.certs
    requires t.entries == s.entries[k := s.entries[k].(output := None, change := t.clock)]
    ensures LocalIndex(t, l) == LocalIndex(s, l)
    ensures HoldsReplica(t, l) <==> HoldsReplica(s, l) && l != k
  {
  }

  /** A removal takes its invocation off the list, adds none, and leaves the others' ages alone. */
  lemma RemovalShrinks(s: Store, k: Invocation)
    requires SoundCerts(s.entries, s.certs) && k in CandidateKeys(s) && RemovePayload(s, k).Ok?
    ensures var t := RemovePayload(s, k).value;
      && CandidateKeys(t) == CandidateKeys(s) - {k}
      && t.entries.Keys == s.entries.Keys
      && (forall l :: l in s.entries && l != k ==> t.entries[l] == s.entries[l])
  {
    var t := RemovePayload(s, k).value;
    var u := ClearJob(s, k).(clock := t.clock);
    forall l | l in s.entries
      ensures IsCandidate(t, l) <==> IsCandidate(s, l) && l != k
    {
      ClearedJob(s, k, l);
      assert LocalIndex(u, l) == LocalIndex(ClearJob(s, k), l);
      RestampKeepsLocal(u, t, k, l);
    }
  }

  /** What a removal changes, field by field. */
  lemma RemovalShape(s: Store, k: Invocation)
    requires k in s.entries && RemovePayload(s, k).Ok?
    ensures var t, i := RemovePayload(s, k).value, LocalIndex(s, k);
      && t == s.(jobs := t.jobs, clock := s.clock + 1, entries := t.entries,
                 outputPruned := t.outputPruned, historyPruned := s.historyPruned + {k})
      && t.entries == s.entries[k := s.entries[k].(output := None, change := s.clock + 1)]
      && (if i == |s.jobs| then t.jobs == s.jobs && t.outputPruned == s.outputPruned
          else t.jobs == s.jobs[i := s.jobs[i].(stdout := [], stderr := [])]
               && t.outputPruned == s.outputPruned + {k.id})
      && s.clock < MAX_U64
  {
  }

  lemma RemovalAdvances(s: Store, k: Invocation)
    requires Sound(s) && k in s.entries && RemovePayload(s, k).Ok?
    ensures var t := RemovePayload(s, k).value; Advances(s, t) && Sound(t)
  {
    RemovalShape(s, k);
    var t := RemovePayload(s, k).value;
    PutMoves(s.clock, s.entries, k, t.entries[k]);
  }

  function RemoveAll(s: Store, keys: seq<Invocation>): Result<Store>
    requires forall k :: k in keys ==> k in s.entries
    decreases |keys|
  {
    if keys == [] then Ok(s) else
    var t :- RemovePayload(s, keys[0]);
    RemoveAll(t, keys[1..])
  }

  /** All candidates but the newest `keep`. */
  ghost function OldestBut(s: Store, keep: nat): (list: seq<Invocation>)
    ensures forall k :: k in list ==> k in s.entries
  {
    var all := Candidates(s);
    var list := all[..if |all| > keep then |all| - keep else 0];
    assert forall k :: k in list ==> k in all;
    list
  }

  /** `prune(keep)`. */
  ghost function Prune(s: Store, keep: nat): Result<Store> {
    RemoveAll(s, OldestBut(s, keep))
  }

  /** The eviction loop of `prepare`. */
  ghost function EvictFrom(s: Store, keys: seq<Invocation>): Result<Store>
    requires forall k :: k in keys ==> k in s.entries
    decreases |keys|
  {
    if OutputBytes(s) <= OUTPUT_BYTES then Ok(s)
    else if keys == [] then Err(Capacity)
    else
      var t :- RemovePayload(s, keys[0]);
      EvictFrom(t, keys[1..])
  }

  ghost function Evict(s: Store): Result<Store> {
    EvictFrom(s, Candidates(s))
  }

  const MAX_JOBS: nat := 10_000
  const MAX_HISTORY: nat := 30_000
  const MAX_PENDING_REQUESTS: nat := 1024
  const MAX_PEERS: nat := 64
  const MAX_GRANTS: nat := 256

  predicate CountLimit(next: nat, previous: nat, max: nat) {
    !(next > max && next > previous)
  }

  predicate WithinCounts(next: Store, previous: Store) {
    && CountLimit(|next.jobs|, |previous.jobs|, MAX_JOBS)
    && CountLimit(|next.entries|, |previous.entries|, MAX_HISTORY)
    && CountLimit(|next.requests|, |previous.requests|, MAX_PENDING_REQUESTS)
    && CountLimit(|next.peers|, |previous.peers|, MAX_PEERS)
    && CountLimit(|next.grants|, |previous.grants|, MAX_GRANTS)
  }

  ghost function Prepare(next: Store, previous: Store): Result<Store> {
    if !WithinCounts(next, previous) then Err(Capacity) else Evict(next)
  }
}
