/** Laws of pruning and eviction: the capacity charge never rises, exactly the oldest payloads go,
    and eviction succeeds exactly when the payloads it may not touch fit the budget. */
module Retention {
  import opened Types
  import opened Advance
  import opened Sums
  import opened Encoding
  import opened Storage

  // ---- The charge

  lemma TextSetGrows(texts: set<string>, t: string)
    ensures TextSetLen(texts + {t}) <= TextSetLen(texts) + if t in texts then 0 else Quoted(t) + 1
  {
    if t in texts {
      assert texts + {t} == texts;
    } else {
      SumTake(texts + {t}, (x: string) => Quoted(x), t);
      assert texts + {t} - {t} == texts;
    }
  }

  lemma HashSetGrows(keys: set<Invocation>, k: Invocation)
    ensures HashSetLen(keys + {k}) <= HashSetLen(keys) + KeyReceiptLen(keys, k)
  {
    if k in keys {
      assert keys + {k} == keys;
    }
  }

  lemma ClearedRowCharge(j: Job, pruned: set<string>)
    ensures JobCharge(pruned + {j.id})(j.(stdout := [], stderr := [])) + JobReceiptLen(pruned, j)
      == JobCharge(pruned)(j)
  {
  }

  lemma OtherRowCharge(j: Job, pruned: set<string>, id: string)
    ensures JobCharge(pruned + {id})(j) <= JobCharge(pruned)(j)
  {
  }

  lemma ClearingJobCharge(jobs: seq<Job>, pruned: set<string>, i: nat)
    requires i < |jobs|
    ensures var id := jobs[i].id;
      SumSeq(jobs[i := jobs[i].(stdout := [], stderr := [])], JobCharge(pruned + {id})) + TextSetLen(pruned + {id})
        <= SumSeq(jobs, JobCharge(pruned)) + TextSetLen(pruned)
  {
    var id := jobs[i].id;
    var jobs' := jobs[i := jobs[i].(stdout := [], stderr := [])];
    TextSetGrows(pruned, id);
    ClearedRowCharge(jobs[i], pruned);
    forall m | 0 <= m < |jobs| && m != i ensures JobCharge(pruned + {id})(jobs'[m]) <= JobCharge(pruned)(jobs[m]) {
      OtherRowCharge(jobs[m], pruned, id);
    }
    SumSeqDrop(jobs, JobCharge(pruned), jobs', JobCharge(pruned + {id}), i, JobReceiptLen(pruned, jobs[i]));
  }

  lemma StampWidth(n: nat)
    requires n <= MAX_U64
    ensures Digits(n) + Headroom(n) == 20
  {
    DigitsOfU64(n);
  }

  lemma ForgettingEntryCharge(w: Widths, entries: Entries, pruned: set<Invocation>, k: Invocation, change: nat)
    requires k in entries && entries[k].change <= MAX_U64 && change <= MAX_U64
    ensures var entries' := entries[k := entries[k].(output := None, change := change)];
      && entries'.Keys == entries.Keys
      && Sum(entries.Keys, EntryCharge(w, entries', pruned + {k})) + HashSetLen(pruned + {k})
           <= Sum(entries.Keys, EntryCharge(w, entries, pruned)) + HashSetLen(pruned)
  {
    var entries' := entries[k := entries[k].(output := None, change := change)];
    assert entries'.Keys == entries.Keys;
    StampWidth(entries[k].change);
    StampWidth(change);
    HashSetGrows(pruned, k);
    SumDrop(entries.Keys, EntryCharge(w, entries, pruned), EntryCharge(w, entries', pruned + {k}), k,
            KeyReceiptLen(pruned, k));
  }

  /** Removing a payload never raises the charge, whatever the digits and receipts it adds. */
  lemma RemovalCharge(w: Widths, s: Store, k: Invocation)
    requires Sound(s) && k in s.entries && RemovePayload(s, k).Ok?
    ensures Charge(w, RemovePayload(s, k).value) <= Charge(w, s)
  {
    RemovalShape(s, k);
    var t, i := RemovePayload(s, k).value, LocalIndex(s, k);
    ChargeByRows(w, s);
    ChargeByRows(w, t);
    StampWidth(s.clock);
    StampWidth(t.clock);
    ForgettingEntryCharge(w, s.entries, s.historyPruned, k, t.clock);
    assert |t.entries| == |t.entries.Keys| == |s.entries|;
    RemovalJobCharge(s, k, t);
  }

  lemma RemovalJobCharge(s: Store, k: Invocation, t: Store)
    requires k in s.entries && RemovePayload(s, k) == Ok(t)
    ensures SumSeq(t.jobs, JobCharge(t.outputPruned)) + TextSetLen(t.outputPruned)
         <= SumSeq(s.jobs, JobCharge(s.outputPruned)) + TextSetLen(s.outputPruned)
  {
    RemovalShape(s, k);
    var i := LocalIndex(s, k);
    if i < |s.jobs| {
      assert s.jobs[i].id == k.id;
      ClearingJobCharge(s.jobs, s.outputPruned, i);
    }
  }

  /** Any sequence of removals keeps the charge from growing. */
  lemma {:induction false} PruningNeverRaisesCharge(w: Widths, s: Store, keys: seq<Invocation>)
    requires Sound(s) && (forall k :: k in keys ==> k in s.entries) && RemoveAll(s, keys).Ok?
    ensures var t := RemoveAll(s, keys).value; Charge(w, t) <= Charge(w, s) && Sound(t) && Advances(s, t)
    decreases |keys|
  {
    if keys == [] {
      AdvancesReflexive(s);
    } else {
      var u := RemovePayload(s, keys[0]).value;
      RemovalCharge(w, s, keys[0]);
      RemovalAdvances(s, keys[0]);
      PruningNeverRaisesCharge(w, u, keys[1..]);
      AdvancesTransitive(s, u, RemoveAll(s, keys).value);
    }
  }

  // ---- Bytes that eviction may not touch

  predicate JobIsCandidate(s: Store, j: Job) {
    j.id in s.certs && HoldsLocal(s, j, s.certs[j.id])
  }

  function StuckJob(s: Store): Job -> nat {
    (j: Job) => if JobIsCandidate(s, j) then 0 else JobBytes(j)
  }

  function StuckEntry(s: Store): Invocation -> nat {
    k => if k in s.entries && !IsCandidate(s, k) then RetainedBytes(s.entries[k].output) else 0
  }

  ghost function StuckBytes(s: Store): nat {
    SumSeq(s.jobs, StuckJob(s)) + Sum(s.entries.Keys, StuckEntry(s))
  }

  lemma StuckAtMostAll(s: Store)
    ensures StuckBytes(s) <= OutputBytes(s)
  {
    SumSeqBelow(s.jobs, (j: Job) => JobBytes(j), s.jobs, StuckJob(s));
    SumBelow(s.entries.Keys, AtEntry(s.entries, (e: Entry) => RetainedBytes(e.output)), StuckEntry(s));
  }

  lemma {:induction false} IndexOfRow(jobs: seq<Job>, i: nat)
    requires UniqueIds(jobs) && i < |jobs|
    ensures JobIndex(jobs, jobs[i].id) == i
  {
  }

  lemma NothingLeft(s: Store)
    requires UniqueIds(s.jobs) && SoundCerts(s.entries, s.certs) && CandidateKeys(s) == {}
    ensures StuckBytes(s) == OutputBytes(s)
  {
    forall i | 0 <= i < |s.jobs|
      ensures !JobIsCandidate(s, s.jobs[i])
    {
      IndexOfRow(s.jobs, i);
      assert s.jobs[i].id in s.certs ==> s.certs[s.jobs[i].id] !in CandidateKeys(s);
    }
    SumSeqBelow(s.jobs, StuckJob(s), s.jobs, (j: Job) => JobBytes(j));
    forall k | k in s.entries
      ensures !IsCandidate(s, k)
    {
      assert k !in CandidateKeys(s);
    }
    SumBelow(s.entries.Keys, StuckEntry(s), AtEntry(s.entries, (e: Entry) => RetainedBytes(e.output)));
    StuckAtMostAll(s);
  }

  lemma RemovalKeepsStuckJobs(s: Store, t: Store, k: Invocation)
    requires UniqueIds(s.jobs) && SoundCerts(s.entries, s.certs)
    requires k in CandidateKeys(s) && RemovePayload(s, k) == Ok(t)
    ensures SumSeq(t.jobs, StuckJob(t)) == SumSeq(s.jobs, StuckJob(s)) && UniqueIds(t.jobs)
  {
    RemovalShape(s, k);
    assert |t.jobs| == |s.jobs|;
    forall i | 0 <= i < |s.jobs|
      ensures StuckJob(t)(t.jobs[i]) == StuckJob(s)(s.jobs[i])
    {
      assert t.jobs[i] == s.jobs[i] || i == LocalIndex(s, k);
    }
    SumSeqBelow(s.jobs, StuckJob(s), t.jobs, StuckJob(t));
    SumSeqBelow(t.jobs, StuckJob(t), s.jobs, StuckJob(s));
  }

  lemma RemovalKeepsStuck(s: Store, t: Store, k: Invocation)
    requires UniqueIds(s.jobs) && SoundCerts(s.entries, s.certs)
    requires k in CandidateKeys(s) && RemovePayload(s, k) == Ok(t)
    ensures StuckBytes(t) == StuckBytes(s) && UniqueIds(t.jobs)
  {
    RemovalShape(s, k);
    RemovalShrinks(s, k);
    RemovalKeepsStuckJobs(s, t, k);
    assert t.entries.Keys == s.entries.Keys;
    forall l | l in s.entries
      ensures StuckEntry(t)(l) == StuckEntry(s)(l)
    {
      assert l in CandidateKeys(t) <==> l in CandidateKeys(s) && l != k;
    }
    SumSame(s.entries.Keys, StuckEntry(s), StuckEntry(t));
  }

  ghost predicate ListsCandidates(s: Store, keys: seq<Invocation>) {
    && (forall k :: k in keys <==> k in CandidateKeys(s))
    && (forall i, j :: 0 <= i < j < |keys| ==> keys[i] != keys[j])
  }

  lemma ListStep(s: Store, keys: seq<Invocation>, u: Store)
    requires SoundCerts(s.entries, s.certs) && keys != [] && ListsCandidates(s, keys)
    requires keys[0] in s.entries && RemovePayload(s, keys[0]) == Ok(u)
    ensures ListsCandidates(u, keys[1..]) && u.entries.Keys == s.entries.Keys
  {
    assert keys[0] in keys;
    RemovalShrinks(s, keys[0]);
    assert forall k :: k in keys <==> k == keys[0] || k in keys[1..];
  }

  lemma ListedIsStored(s: Store, keys: seq<Invocation>)
    requires ListsCandidates(s, keys)
    ensures forall k :: k in keys ==> k in s.entries && k in CandidateKeys(s)
  {
  }

  /** How many removals from the list eviction makes, however far the change counter is. */
  ghost function Rounds(s: Store, keys: seq<Invocation>): (n: nat)
    requires forall k :: k in keys ==> k in s.entries
    ensures n <= |keys|
    decreases |keys|
  {
    if OutputBytes(s) <= OUTPUT_BYTES || keys == [] then 0
    else 1 + Rounds(RemovePayload(s.(clock := 0), keys[0]).value, keys[1..])
  }

  /** The same but for the change counter and the places of the entries. */
  ghost predicate SamePayloads(s: Store, t: Store) {
    && t == s.(clock := t.clock, entries := t.entries) && t.entries.Keys == s.entries.Keys
    && forall k :: k in s.entries ==>
         t.entries[k].record == s.entries[k].record && t.entries[k].output == s.entries[k].output
  }

  lemma SamePayloadBytes(s: Store, t: Store)
    requires SamePayloads(s, t)
    ensures OutputBytes(t) == OutputBytes(s)
  {
    var bytes := (e: Entry) => RetainedBytes(e.output);
    SumSame(s.entries.Keys, AtEntry(s.entries, bytes), AtEntry(t.entries, bytes));
  }

  lemma SamePayloadsRemoved(s: Store, t: Store, k: Invocation, s': Store, t': Store)
    requires SamePayloads(s, t) && k in s.entries && RemovePayload(s, k) == Ok(s') && RemovePayload(t, k) == Ok(t')
    ensures SamePayloads(s', t')
  {
    RemovalShape(s, k);
    RemovalShape(t, k);
    assert LocalIndex(t, k) == LocalIndex(s, k);
  }

  lemma {:induction false} SameRounds(s: Store, t: Store, keys: seq<Invocation>)
    requires SamePayloads(s, t) && forall k :: k in keys ==> k in s.entries
    ensures Rounds(t, keys) == Rounds(s, keys)
    decreases |keys|
  {
    SamePayloadBytes(s, t);
    if OutputBytes(s) > OUTPUT_BYTES && keys != [] {
      var s0, t0 := s.(clock := 0), t.(clock := 0);
      SamePayloadsRemoved(s0, t0, keys[0], RemovePayload(s0, keys[0]).value, RemovePayload(t0, keys[0]).value);
      SameRounds(RemovePayload(s0, keys[0]).value, RemovePayload(t0, keys[0]).value, keys[1..]);
    }
  }

  lemma OneRound(s: Store, keys: seq<Invocation>, u: Store)
    requires (forall k :: k in keys ==> k in s.entries) && keys != [] && OutputBytes(s) > OUTPUT_BYTES
    requires RemovePayload(s, keys[0]) == Ok(u) && u.entries.Keys == s.entries.Keys
    ensures Rounds(s, keys) == 1 + Rounds(u, keys[1..])
  {
    var v := RemovePayload(s.(clock := 0), keys[0]).value;
    SamePayloadsRemoved(s, s.(clock := 0), keys[0], u, v);
    SameRounds(u, v, keys[1..]);
  }

  /** Eviction succeeds exactly when the bytes no removal may touch fit the budget and the change counter
      has a step left for each removal. */
  lemma {:induction false} EvictionSucceedsIff(s: Store, keys: seq<Invocation>)
    requires Sound(s) && UniqueIds(s.jobs) && ListsCandidates(s, keys)
    ensures (forall k :: k in keys ==> k in s.entries)
    ensures EvictFrom(s, keys).Ok? <==> StuckBytes(s) <= OUTPUT_BYTES && s.clock + Rounds(s, keys) <= MAX_U64
    decreases |keys|
  {
    ListedIsStored(s, keys);
    StuckAtMostAll(s);
    if OutputBytes(s) <= OUTPUT_BYTES {
    } else if keys == [] {
      assert CandidateKeys(s) == {};
      NothingLeft(s);
    } else if s.clock == MAX_U64 {
      assert RemovePayload(s, keys[0]).Err?;
    } else {
      assert keys[0] in keys;
      var u := RemovePayload(s, keys[0]).value;
      RemovalShape(s, keys[0]);
      RemovalAdvances(s, keys[0]);
      ListStep(s, keys, u);
      RemovalKeepsStuck(s, u, keys[0]);
      OneRound(s, keys, u);
      EvictionSucceedsIff(u, keys[1..]);
    }
  }

  /** Eviction removes the shortest prefix of its list that brings the bytes within the budget. */
  lemma {:induction false} EvictionIsMinimal(s: Store, keys: seq<Invocation>) returns (n: nat)
    requires (forall k :: k in keys ==> k in s.entries) && EvictFrom(s, keys).Ok?
    ensures n <= |keys| && RemoveAll(s, keys[..n]) == EvictFrom(s, keys)
    ensures OutputBytes(EvictFrom(s, keys).value) <= OUTPUT_BYTES
    ensures forall m :: 0 <= m < n ==>
      RemoveAll(s, keys[..m]).Ok? && OutputBytes(RemoveAll(s, keys[..m]).value) > OUTPUT_BYTES
    decreases |keys|
  {
    n := 0;
    assert keys[..0] == [];
    if OutputBytes(s) > OUTPUT_BYTES {
      var u := EvictStep(s, keys);
      var m := EvictionIsMinimal(u, keys[1..]);
      n := m + 1;
      forall i | 1 <= i <= n
        ensures RemoveAll(s, keys[..i]) == RemoveAll(u, keys[1..][..i - 1])
      {
        RemoveAllStep(s, keys, i, u);
      }
    }
  }

  lemma EvictStep(s: Store, keys: seq<Invocation>) returns (u: Store)
    requires (forall k :: k in keys ==> k in s.entries) && EvictFrom(s, keys).Ok? && OutputBytes(s) > OUTPUT_BYTES
    ensures keys != [] && RemovePayload(s, keys[0]) == Ok(u) && u.entries.Keys == s.entries.Keys
    ensures EvictFrom(u, keys[1..]) == EvictFrom(s, keys)
  {
    u := RemovePayload(s, keys[0]).value;
    RemovalShape(s, keys[0]);
  }

  lemma RemoveAllStep(s: Store, keys: seq<Invocation>, i: nat, u: Store)
    requires 1 <= i <= |keys| && (forall k :: k in keys ==> k in s.entries) && RemovePayload(s, keys[0]) == Ok(u)
    requires forall k :: k in s.entries ==> k in u.entries
    ensures RemoveAll(s, keys[..i]) == RemoveAll(u, keys[1..][..i - 1])
  {
    assert keys[..i][1..] == keys[1..][..i - 1];
  }

  // ---- What a removal leaves alone

  predicate RowKept(a: Job, b: Job) {
    b == a || (IsTerminal(a.status) && b == a.(stdout := [], stderr := []))
  }

  /** Rows, statuses, certificates and signed facts stay; a job that may still change is untouched. */
  ghost predicate OnlyOutputDropped(s: Store, t: Store) {
    && t == s.(jobs := t.jobs, clock := t.clock, entries := t.entries,
               outputPruned := t.outputPruned, historyPruned := t.historyPruned)
    && |t.jobs| == |s.jobs| && (forall i :: 0 <= i < |s.jobs| ==> RowKept(s.jobs[i], t.jobs[i]))
    && t.entries.Keys == s.entries.Keys
    && (forall k :: k in s.entries ==>
          t.entries[k].record == s.entries[k].record && t.entries[k].output in {None, s.entries[k].output})
  }

  lemma RemovalKeepsRows(s: Store, k: Invocation)
    requires k in s.entries && RemovePayload(s, k).Ok?
    ensures OnlyOutputDropped(s, RemovePayload(s, k).value)
  {
    RemovalShape(s, k);
  }

  lemma {:induction false} PruningKeepsRows(s: Store, keys: seq<Invocation>)
    requires (forall k :: k in keys ==> k in s.entries) && RemoveAll(s, keys).Ok?
    ensures OnlyOutputDropped(s, RemoveAll(s, keys).value)
    decreases |keys|
  {
    if keys != [] {
      RemovalKeepsRows(s, keys[0]);
      PruningKeepsRows(RemovePayload(s, keys[0]).value, keys[1..]);
    }
  }

  lemma PruneDropsOutput(s: Store, keep: nat, t: Store)
    requires Prune(s, keep) == Ok(t)
    ensures OnlyOutputDropped(s, t)
  {
    PruningKeepsRows(s, OldestBut(s, keep));
  }

  ghost predicate SortedByAge(entries: Entries, list: seq<Invocation>) {
    && (forall k :: k in list ==> k in entries)
    && (forall i, j :: 0 <= i < j < |list| ==> entries[list[i]].change <= entries[list[j]].change)
  }

  lemma FrontIsOlder(entries: Entries, list: seq<Invocation>, n: nat, k: Invocation, l: Invocation)
    requires SortedByAge(entries, list) && n <= |list| && k in list && k !in list[n..] && l in list[n..]
    ensures k in entries && l in entries && entries[k].change <= entries[l].change
  {
    var i :| 0 <= i < |list| && list[i] == k;
    var j :| 0 <= j < |list[n..]| && list[n..][j] == l;
    assert list[n + j] == l;
    assert forall m :: n <= m < |list| ==> list[n..][m - n] == list[m];
  }

  ghost predicate KeepsNewest(s: Store, t: Store, keep: nat) {
    && CandidateKeys(t) <= CandidateKeys(s)
    && |CandidateKeys(t)| == (if |CandidateKeys(s)| > keep then keep else |CandidateKeys(s)|)
    && (forall k, l :: k in CandidateKeys(s) - CandidateKeys(t) && l in CandidateKeys(t) ==>
          s.entries[k].change < s.entries[l].change)
  }

  lemma RestIsNewest(s: Store, t: Store, list: seq<Invocation>, n: nat)
    requires SoundEntries(s.clock, s.entries) && n <= |list|
    requires SortedByAge(s.entries, list) && ListsCandidates(s, list) && ListsCandidates(t, list[n..])
    ensures KeepsNewest(s, t, |list| - n)
  {
    SetOfList(list, CandidateKeys(s));
    SetOfList(list[n..], CandidateKeys(t));
    assert forall k :: k in list[n..] ==> k in list;
    forall k, l | k in CandidateKeys(s) - CandidateKeys(t) && l in CandidateKeys(t)
      ensures s.entries[k].change < s.entries[l].change
    {
      FrontIsOlder(s.entries, list, n, k, l);
    }
  }

  /** `prune(keep)` leaves exactly the `keep` newest candidates, and every one it took was older. */
  lemma PruneKeepsNewest(s: Store, keep: nat)
    requires Sound(s) && Prune(s, keep).Ok?
    ensures KeepsNewest(s, Prune(s, keep).value, keep)
  {
    var list := AgeList(s);
    PruneLeaves(s, list, if |list| > keep then |list| - keep else 0, Prune(s, keep).value);
  }

  lemma AgeList(s: Store) returns (list: seq<Invocation>)
    ensures list == Candidates(s) && SortedByAge(s.entries, list) && ListsCandidates(s, list)
  {
    list := ByAge(s.entries, CandidateKeys(s));
  }

  lemma PruneLeaves(s: Store, list: seq<Invocation>, n: nat, t: Store)
    requires Sound(s) && n <= |list| && SortedByAge(s.entries, list) && ListsCandidates(s, list)
    requires (forall k :: k in list[..n] ==> k in s.entries) && RemoveAll(s, list[..n]) == Ok(t)
    ensures KeepsNewest(s, t, |list| - n) && |CandidateKeys(s)| == |list|
  {
    TakenFromFront(s, list, n);
    RestIsNewest(s, t, list, n);
    SetOfList(list, CandidateKeys(s));
  }

  lemma {:induction false} SetOfList<T>(list: seq<T>, s: set<T>)
    requires forall k :: k in s <==> k in list
    requires forall i, j :: 0 <= i < j < |list| ==> list[i] != list[j]
    ensures |s| == |list|
    decreases |list|
  {
    if list == [] {
      assert s == {};
    } else {
      assert list[0] in list;
      assert forall k :: k in s - {list[0]} <==> k in list[1..];
      SetOfList(list[1..], s - {list[0]});
    }
  }

  lemma {:induction false} TakenFromFront(s: Store, list: seq<Invocation>, n: nat)
    requires Sound(s) && n <= |list| && ListsCandidates(s, list)
    requires (forall k :: k in list[..n] ==> k in s.entries) && RemoveAll(s, list[..n]).Ok?
    ensures ListsCandidates(RemoveAll(s, list[..n]).value, list[n..])
    decreases n
  {
    if n > 0 {
      assert list[..n][0] == list[0] && list[..n][1..] == list[1..][..n - 1];
      assert list[1..][n - 1..] == list[n..];
      var u := RemovePayload(s, list[0]).value;
      ListStep(s, list, u);
      RemovalAdvances(s, list[0]);
      TakenFromFront(u, list[1..], n - 1);
    }
  }
}
