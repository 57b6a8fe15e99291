/** What the owner can do about a recovery directory (src/pin.rs, `recovery_resolve` and `recovery_discard`): every
    problem that can be cleared, after any crash and in any directory, and an interrupted discard to its end. */
module PinRecovery {
  import opened Types
  import opened PinListing
  import opened PinJournal
  import Names

  // ---- Tokens

  function Depth(t: Token): nat {
    match t
    case OfReceipt(r, _, _, _) => if r.discardToken.Some? then 1 + Depth(r.discardToken.value) else 1
    case OfArtifact(_, _) => 0
  }

  /** No receipt holds the token of its own present state. */
  lemma TokensAreNotCyclic(v: View)
    requires v.token.OfReceipt? ==> v.token.receipt == v.receipt
    requires v.token.OfArtifact? ==> v.receipt.discardToken.None?
    ensures !Resumes(v, v.token)
  {
    assert v.token.OfReceipt? && v.receipt.discardToken.Some? ==>
        Depth(v.token) == 1 + Depth(v.receipt.discardToken.value);
  }

  function Nesting(r: Receipt): nat {
    if r.expected.Some? && r.expected.value.Note? then 1 + Nesting(r.expected.value.receipt) else 0
  }

  /** No receipt contains itself. */
  lemma ReceiptsAreNotCyclic(r: Receipt)
    ensures r.expected != Some(Note(r))
  {
    assert r.expected == Some(Note(r)) ==> Nesting(r) == 1 + Nesting(r);
  }

  // ---- What may be started

  lemma MayDiscardRecorded(d: Disk, id: string)
    requires ValidName(id) && id in d.rec && IsJson(id) && Parses(d.rec[id]) && !d.rec[id].receipt.state.Pending?
    ensures var i := Inspect(d.live, d.rec, id);
      i.Ok? && i.value.recorded && i.value.receipt == d.rec[id].receipt && MayDiscard(i.value, i.value.token)
  {
    TokensAreNotCyclic(Inspect(d.live, d.rec, id).value);
  }

  lemma MayDiscardArtifact(d: Disk, id: string)
    requires NamesValid(d.rec) && id in d.rec && (IsJson(id) ==> !Parses(d.rec[id]))
    requires forall n :: ReferredBy(d.rec, n, id) ==> n == id
    requires !IsJson(id) ==> forall n :: n in d.rec && IsJson(n) ==> Parses(d.rec[n])
    ensures var i := Inspect(d.live, d.rec, id);
      i.Ok? && !i.value.recorded && i.value.receipt.version == id && MayDiscard(i.value, i.value.token)
  {
    assert forall n :: n in d.rec && n != id && IsJson(n) && Parses(d.rec[n]) ==> !ReferredBy(d.rec, n, id);
  }

  /** A decision of the owner, or a step of carrying it out. */
  predicate ByOwner(a: Action) {
    a.Resolve? || a.Discard? || a.Advance?
  }

  /** The owner's decision, and where it ends when nothing comes in between. */
  ghost predicate Decides(s: Sys, a: Action, start: Sys, n: nat, rec: Files) {
    Acts(s, a, start) && ByOwner(a) && Ends(start, n, s.disk.live, rec)
  }

  lemma KeepLive(s: Sys, id: string, ids: Ids, tmp: string) returns (a: Action, start: Sys)
    requires s.task.Idle? && FreshIds(s.disk.rec, ids)
    requires FreshName(s.disk.rec, tmp) && tmp !in {ids.version, ids.tmp1, ids.tmp2}
    requires ValidName(id) && id in s.disk.rec && IsJson(id)
    requires Parses(s.disk.rec[id]) && !s.disk.rec[id].receipt.state.Discarding?
    ensures Decides(s, a, start, 3, s.disk.rec[id := Note(Reviewed(s.disk, id))])
  {
    var token := Inspect(s.disk.live, s.disk.rec, id).value.token;
    a := Resolve(id, token, false, false, true, ids, tmp);
    start := s.(task := StartReview(s, id, token, false, false, true, ids, tmp));
    KeepLiveCompletes(s, id, token, false, true, ids, tmp);
  }

  lemma GiveUp(s: Sys, id: string, tmp: string, journal: string) returns (a: Action, start: Sys)
    requires s.task.Idle? && FreshName(s.disk.rec, tmp) && FreshJournal(s.disk.rec, journal)
    requires Inspect(s.disk.live, s.disk.rec, id).Ok? && !ReferredBy(s.disk.rec, id, id)
    requires var v := Inspect(s.disk.live, s.disk.rec, id).value; MayDiscard(v, v.token)
    ensures Decides(s, a, start, 4, s.disk.rec - {Inspect(s.disk.live, s.disk.rec, id).value.receipt.version, id})
  {
    var token := Inspect(s.disk.live, s.disk.rec, id).value.token;
    a := Discard(id, token, journal, tmp);
    start := s.(task := StartDiscard(s, id, token, journal, tmp));
    DiscardCompletes(s, id, token, journal, tmp);
  }

  /** In a directory of valid names, where each receipt parses and has a data file of its own, each problem has an
      operation that the owner may start and that, undisturbed, runs to its end and leaves strictly fewer problems:
      keep-live for a receipt, or a discard for a receipt already being discarded and for data that no receipt
      refers to. */
  lemma EveryProblemCanBeCleared(s: Sys, name: string, ids: Ids, tmp: string, journal: string)
    returns (a: Action, start: Sys, n: nat, rec: Files)
    requires SysOk(s) && s.task.Idle? && NamesValid(s.disk.rec) && name in Problems(s.disk.rec)
    requires FreshIds(s.disk.rec, ids) && FreshName(s.disk.rec, tmp) && tmp !in {ids.version, ids.tmp1, ids.tmp2}
    requires FreshJournal(s.disk.rec, journal)
    ensures Decides(s, a, start, n, rec) && Problems(rec) <= Problems(s.disk.rec) - {name}
  {
    var d := s.disk;
    if IsJson(name) && !d.rec[name].receipt.state.Discarding? {
      assert Parses(d.rec[name]);
      a, start := KeepLive(s, name, ids, tmp);
      n, rec := 3, d.rec[name := Note(Reviewed(d, name))];
      KeepLiveClears(d, name);
    } else {
      ProblemMayBeDiscarded(d, name);
      var version := Inspect(d.live, d.rec, name).value.receipt.version;
      InspectedReceipt(d, name);
      a, start := GiveUp(s, name, tmp, journal);
      n, rec := 4, d.rec - {version, name};
      DiscardClears(d.rec, name, version);
    }
  }

  lemma ProblemMayBeDiscarded(d: Disk, name: string)
    requires Orderly(d.rec) && NamesValid(d.rec) && name in Problems(d.rec)
    requires IsJson(name) ==> d.rec[name].receipt.state.Discarding?
    ensures var i := Inspect(d.live, d.rec, name); i.Ok? && MayDiscard(i.value, i.value.token)
    ensures !ReferredBy(d.rec, name, name)
  {
    if IsJson(name) {
      assert Parses(d.rec[name]);
      MayDiscardRecorded(d, name);
    } else {
      assert Unsettled(d.rec, name);
      MayDiscardArtifact(d, name);
    }
  }

  // ---- Any directory

  /** A receipt about itself is found changed by its own discard, so another receipt must be about it. */
  ghost predicate Untangled(rec: Files) {
    forall id :: ReferredBy(rec, id, id) ==> exists other :: other != id && ReferredBy(rec, other, id)
  }

  /** No new names, and no receipt refers to another version than before. */
  predicate Lessened(rec: Files, rec': Files) {
    && rec'.Keys <= rec.Keys
    && forall n :: n in rec' && IsJson(n) && rec'[n].Note? ==>
         n in rec && rec[n].Note? && rec'[n].receipt.version == rec[n].receipt.version
  }

  ghost predicate Better(rec: Files, rec': Files) {
    Lessened(rec, rec') && Untangled(rec')
    && (rec'.Keys < rec.Keys || (rec'.Keys == rec.Keys && Problems(rec') < Problems(rec)))
  }

  lemma NamesGone(rec: Files, gone: set<string>, id: string)
    requires id in rec && id in gone
    ensures Lessened(rec, rec - gone) && (rec - gone).Keys < rec.Keys
    ensures forall n, m :: ReferredBy(rec - gone, n, m) <==> n !in gone && ReferredBy(rec, n, m)
  {
    assert id !in (rec - gone).Keys;
  }

  /** A receipt about itself goes with another that is about it. */
  lemma Untie(s: Sys, id: string, tmp: string, journal: string)
    returns (a: Action, start: Sys, n: nat, rec: Files)
    requires s.task.Idle? && NamesValid(s.disk.rec) && Untangled(s.disk.rec) && ReferredBy(s.disk.rec, id, id)
    requires FreshName(s.disk.rec, tmp) && FreshJournal(s.disk.rec, journal)
    ensures Decides(s, a, start, n, rec) && Better(s.disk.rec, rec)
  {
    var other :| other != id && ReferredBy(s.disk.rec, other, id);
    MayDiscardRecorded(s.disk, other);
    a, start := GiveUp(s, other, tmp, journal);
    n, rec := 4, s.disk.rec - {id, other};
    NamesGone(s.disk.rec, {id, other}, other);
    forall x | ReferredBy(rec, x, x) ensures exists y :: y != x && ReferredBy(rec, y, x) {
      var y :| y != x && ReferredBy(s.disk.rec, y, x);
      assert ReferredBy(rec, y, x);
    }
  }

  /** A malformed receipt goes as an artifact, or with the receipt of its own interrupted discard. */
  lemma DropMalformed(s: Sys, id: string, tmp: string, journal: string)
    returns (a: Action, start: Sys, n: nat, rec: Files)
    requires s.task.Idle? && NamesValid(s.disk.rec) && id in s.disk.rec && IsJson(id) && !Parses(s.disk.rec[id])
    requires forall x :: !ReferredBy(s.disk.rec, x, x)
    requires FreshName(s.disk.rec, tmp) && FreshJournal(s.disk.rec, journal)
    ensures Decides(s, a, start, n, rec) && Better(s.disk.rec, rec)
  {
    var asked := id;
    if owner :| ReferredBy(s.disk.rec, owner, id) {
      asked := owner;
      MayDiscardRecorded(s.disk, asked);
    } else {
      MayDiscardArtifact(s.disk, asked);
    }
    a, start := GiveUp(s, asked, tmp, journal);
    n, rec := 4, s.disk.rec - {id, asked};
    NamesGone(s.disk.rec, {id, asked}, asked);
  }

  lemma DropUnsettled(s: Sys, id: string, tmp: string, journal: string)
    returns (a: Action, start: Sys, n: nat, rec: Files)
    requires s.task.Idle? && NamesValid(s.disk.rec) && id in s.disk.rec && Unsettled(s.disk.rec, id)
    requires forall x :: x in s.disk.rec && IsJson(x) ==> Parses(s.disk.rec[x])
    requires IsJson(id) ==> s.disk.rec[id].receipt.state.Discarding?
    requires forall x :: !ReferredBy(s.disk.rec, x, x)
    requires FreshName(s.disk.rec, tmp) && FreshJournal(s.disk.rec, journal)
    ensures Decides(s, a, start, n, rec) && Better(s.disk.rec, rec)
  {
    if IsJson(id) {
      MayDiscardRecorded(s.disk, id);
    } else {
      MayDiscardArtifact(s.disk, id);
    }
    var version := Inspect(s.disk.live, s.disk.rec, id).value.receipt.version;
    a, start := GiveUp(s, id, tmp, journal);
    n, rec := 4, s.disk.rec - {version, id};
    NamesGone(s.disk.rec, {version, id}, id);
  }

  lemma SettleReceipt(s: Sys, id: string, ids: Ids, tmp: string)
    returns (a: Action, start: Sys, n: nat, rec: Files)
    requires s.task.Idle? && NamesValid(s.disk.rec) && id in Problems(s.disk.rec) && IsJson(id)
    requires Parses(s.disk.rec[id]) && !s.disk.rec[id].receipt.state.Discarding?
    requires forall x :: !ReferredBy(s.disk.rec, x, x)
    requires FreshIds(s.disk.rec, ids) && FreshName(s.disk.rec, tmp) && tmp !in {ids.version, ids.tmp1, ids.tmp2}
    ensures Decides(s, a, start, n, rec) && Better(s.disk.rec, rec)
  {
    a, start := KeepLive(s, id, ids, tmp);
    n, rec := 3, s.disk.rec[id := Note(Reviewed(s.disk, id))];
    KeepLiveClears(s.disk, id);
    assert rec.Keys == s.disk.rec.Keys;
    forall x | ReferredBy(rec, x, x) ensures false {
      assert x != id ==> ReferredBy(s.disk.rec, x, x);
    }
  }

  /** In an untangled directory of valid names with any problem left, some operation makes it better. */
  lemma SomethingHelps(s: Sys, ids: Ids, tmp: string, journal: string)
    returns (a: Action, start: Sys, n: nat, rec: Files)
    requires s.task.Idle? && NamesValid(s.disk.rec) && Untangled(s.disk.rec) && Problems(s.disk.rec) != {}
    requires FreshIds(s.disk.rec, ids) && FreshName(s.disk.rec, tmp) && tmp !in {ids.version, ids.tmp1, ids.tmp2}
    requires FreshJournal(s.disk.rec, journal)
    ensures Decides(s, a, start, n, rec) && Better(s.disk.rec, rec)
  {
    var files := s.disk.rec;
    if knot :| ReferredBy(files, knot, knot) {
      a, start, n, rec := Untie(s, knot, tmp, journal);
    } else if bad :| bad in files && IsJson(bad) && !Parses(files[bad]) {
      a, start, n, rec := DropMalformed(s, bad, tmp, journal);
    } else {
      var name :| name in Problems(files);
      if IsJson(name) && !files[name].receipt.state.Discarding? {
        a, start, n, rec := SettleReceipt(s, name, ids, tmp);
      } else {
        a, start, n, rec := DropUnsettled(s, name, tmp, journal);
      }
    }
  }

  // ---- To the end

  ghost predicate Path(states: seq<Sys>, actions: seq<Action>) {
    && |states| == |actions| + 1
    && forall i {:trigger actions[i]} :: 0 <= i < |actions| ==> Acts(states[i], actions[i], states[i + 1])
  }

  function Trail(s: Sys, n: nat): (states: seq<Sys>)
    ensures |states| == n + 1 && states[0] == s && states[n] == Steps(s, n)
    ensures forall i :: 0 <= i < n ==> states[i + 1] == Next(states[i])
    decreases n
  {
    if n == 0 then [s] else [s] + Trail(Next(s), n - 1)
  }

  lemma LessenedStaysFresh(rec: Files, rec': Files, ids: Ids, tmp: string, journal: string)
    requires Lessened(rec, rec') && FreshIds(rec, ids) && FreshName(rec, tmp) && FreshJournal(rec, journal)
    ensures FreshIds(rec', ids) && FreshName(rec', tmp) && FreshJournal(rec', journal)
    ensures NamesValid(rec) ==> NamesValid(rec')
  {
    forall name | Unreferenced(rec, name) ensures Unreferenced(rec', name) {
    }
  }

  lemma JoinPath(s: Sys, a: Action, start: Sys, n: nat, rest: seq<Sys>, later: seq<Action>)
    requires Acts(s, a, start) && Path(rest, later) && rest[0] == Steps(start, n)
    ensures Path([s] + Trail(start, n)[..n] + rest, [a] + seq(n, _ => Advance) + later)
  {
    var trail := Trail(start, n);
    var states, actions := [s] + trail[..n] + rest, [a] + seq(n, _ => Advance) + later;
    assert states[1] == start;
    forall i {:trigger actions[i]} | 0 <= i < |actions| ensures Acts(states[i], actions[i], states[i + 1]) {
      if 0 < i <= n {
        assert states[i] == trail[i - 1] && states[i + 1] == trail[i] && actions[i] == Advance;
      } else if i > n {
        var k := i - n - 1;
        assert actions[i] == later[k] && states[i] == rest[k] && states[i + 1] == rest[k + 1];
      }
    }
  }

  /** From the state s to one where the check passes. */
  ghost predicate Recovers(states: seq<Sys>, actions: seq<Action>, s: Sys) {
    Path(states, actions) && states[0] == s && states[|actions|].task.Idle? && CheckOk(states[|actions|].disk.rec, None)
  }

  /** The owner's operations, one after another, bring every problem of an untangled directory of valid names to an
      end, whatever else is in it: the check passes again, and syncs go on. */
  lemma {:induction false} RecoveryCompletes(s: Sys, ids: Ids, tmp: string, journal: string)
    returns (states: seq<Sys>, actions: seq<Action>)
    requires s.task.Idle? && NamesValid(s.disk.rec) && Untangled(s.disk.rec)
    requires FreshIds(s.disk.rec, ids) && FreshName(s.disk.rec, tmp) && tmp !in {ids.version, ids.tmp1, ids.tmp2}
    requires FreshJournal(s.disk.rec, journal)
    ensures Recovers(states, actions, s) && forall a :: a in actions ==> ByOwner(a)
    decreases s.disk.rec.Keys, Problems(s.disk.rec)
  {
    if Problems(s.disk.rec) == {} {
      ChecksExactlyWithoutProblems(s.disk.rec);
      states, actions := [s], [];
    } else {
      var a, start, n, rec := SomethingHelps(s, ids, tmp, journal);
      var next := Steps(start, n);
      LessenedStaysFresh(s.disk.rec, rec, ids, tmp, journal);
      var rest, later := RecoveryCompletes(next, ids, tmp, journal);
      JoinPath(s, a, start, n, rest, later);
      states, actions := [s] + Trail(start, n)[..n] + rest, [a] + seq(n, _ => Advance) + later;
    }
  }

  // ---- What no operation clears

  /** Some file keeps every check from passing. */
  lemma Blocked(rec: Files, name: string, ignored: Option<string>)
    requires name in rec && (!ValidName(name) || (Unsettled(rec, name) && ignored != Some(name)))
    ensures !CheckOk(rec, ignored)
  {
  }

  /** The operation in progress leaves a name alone that is not valid. */
  ghost predicate LeavesInvalid(t: Task) {
    match t
    case Idle => true
    case Publishing(_, _, _, _, _, _) => false
    case Restoring(review, _, _, _) => ValidName(review.tmp)
    case Reviewing(review, _) => ValidName(review.tmp)
    case Dropping(_, intent, journal, tmp, _) => ValidName(intent.version) && ValidName(journal) && ValidName(tmp)
  }

  lemma ActLeavesInvalid(s: Sys, a: Action, s': Sys, name: string)
    requires Acts(s, a, s') && name in s.disk.rec && !ValidName(name) && LeavesInvalid(s.task)
    ensures name in s'.disk.rec && LeavesInvalid(s'.task)
  {
    match a
    case Publish(_, _, _, _, _) => Blocked(s.disk.rec, name, None);
    case Discard(id, _, _, _) =>
      if Inspect(s.disk.live, s.disk.rec, id).Ok? {
        Inspected(s.disk, id);
      }
    case Advance =>
      if s.task.Restoring? {
        Blocked(s.disk.rec, name, Some(s.task.review.id));
      }
    case _ =>
  }

  /** Nothing the program or another one does gets rid of an entry whose name is not valid, healthy or not, and while
      it is there no check passes. */
  lemma InvalidNameStays(states: seq<Sys>, actions: seq<Action>, i: nat, name: string)
    requires Path(states, actions) && i < |states| && states[0].task.Idle?
    requires name in states[0].disk.rec && !ValidName(name)
    ensures name in states[i].disk.rec && forall ignored :: !CheckOk(states[i].disk.rec, ignored)
  {
    for n := 0 to i
      invariant name in states[n].disk.rec && LeavesInvalid(states[n].task)
    {
      ActLeavesInvalid(states[n], actions[n], states[n + 1], name);
    }
    forall ignored | true ensures !CheckOk(states[i].disk.rec, ignored) {
      Blocked(states[i].disk.rec, name, ignored);
    }
  }

  /** A receipt about itself, and no other is about it. */
  ghost predicate Knot(rec: Files, id: string) {
    ReferredBy(rec, id, id) && forall other :: ReferredBy(rec, other, id) ==> other == id
  }

  /** Its own discard writes it again, and then finds it changed. */
  ghost predicate LeavesKnot(rec: Files, t: Task, id: string) {
    match t
    case Idle => true
    case Publishing(_, _, _, _, _, _) => false
    case Restoring(review, _, _, _) =>
      review.id != id && !IsJson(review.tmp) && !IsJson(review.view.receipt.version)
    case Reviewing(review, step) =>
      && review.id != id && !IsJson(review.tmp) && !IsJson(review.view.receipt.version)
      && (step.WriteResolved? || step.PlaceResolved? ==> !IsJson(step.resolved.version))
    case Dropping(view, intent, journal, tmp, drop) =>
      && !IsJson(tmp) && IsJson(journal)
      && if journal == id then
           && Parses(Note(intent)) && intent.version == id && intent.expected == view.retained && view.retained.Some?
           && drop != RemoveIntent && (drop == DeleteVersion ==> Holds(rec, id, intent))
         else intent.version != id
  }

  lemma KnotIsUnsettled(rec: Files, id: string)
    requires Knot(rec, id)
    ensures Unsettled(rec, id)
  {
  }

  lemma StartLeavesKnot(s: Sys, a: Action, s': Sys, id: string)
    requires Acts(s, a, s') && Knot(s.disk.rec, id) && s.task.Idle? && (a.Publish? || a.Resolve? || a.Discard?)
    ensures Knot(s'.disk.rec, id) && LeavesKnot(s'.disk.rec, s'.task, id)
  {
    KnotIsUnsettled(s.disk.rec, id);
    match a
    case Publish(_, _, _, _, _) => Blocked(s.disk.rec, id, None);
    case Resolve(other, _, _, _, _, _, _) =>
      if Inspect(s.disk.live, s.disk.rec, other).Ok? {
        Inspected(s.disk, other);
      }
    case Discard(other, _, _, _) =>
      if Inspect(s.disk.live, s.disk.rec, other).Ok? {
        Inspected(s.disk, other);
        assert other != id ==> !ReferredBy(s.disk.rec, other, id);
      }
  }

  lemma SameKnot(rec: Files, rec': Files, id: string)
    requires Knot(rec, id) && id in rec' && Parses(rec'[id]) && rec'[id].receipt.version == id
    requires forall n :: n in rec' && n != id && IsJson(n) && Parses(rec'[n]) && rec'[n].receipt.version == id ==>
      ReferredBy(rec, n, id)
    ensures Knot(rec', id)
  {
  }

  lemma DropLeavesKnot(s: Sys, id: string)
    requires Knot(s.disk.rec, id) && LeavesKnot(s.disk.rec, s.task, id) && s.task.Dropping?
    ensures Knot(Next(s).disk.rec, id) && LeavesKnot(Next(s).disk.rec, Next(s).task, id)
  {
    ReceiptsAreNotCyclic(s.task.intent);
    SameKnot(s.disk.rec, Next(s).disk.rec, id);
  }

  lemma ReviewLeavesKnot(s: Sys, id: string)
    requires Knot(s.disk.rec, id) && LeavesKnot(s.disk.rec, s.task, id) && s.task.Reviewing?
    ensures Knot(Next(s).disk.rec, id) && LeavesKnot(Next(s).disk.rec, Next(s).task, id)
  {
    SameKnot(s.disk.rec, Next(s).disk.rec, id);
  }

  lemma ActLeavesKnot(s: Sys, a: Action, s': Sys, id: string)
    requires Acts(s, a, s') && Knot(s.disk.rec, id) && LeavesKnot(s.disk.rec, s.task, id)
    ensures Knot(s'.disk.rec, id) && LeavesKnot(s'.disk.rec, s'.task, id)
  {
    match a
    case Advance =>
      KnotIsUnsettled(s.disk.rec, id);
      match s.task {
        case Idle =>
        case Restoring(review, _, _, _) => Blocked(s.disk.rec, id, Some(review.id));
        case Reviewing(_, _) => ReviewLeavesKnot(s, id);
        case Dropping(_, _, _, _, _) => DropLeavesKnot(s, id);
      }
    case Outside(d) => SameKnot(s.disk.rec, d.rec, id);
    case Crash =>
    case _ => StartLeavesKnot(s, a, s', id);
  }

  lemma KnotStays(states: seq<Sys>, actions: seq<Action>, i: nat, id: string)
    requires Path(states, actions) && i < |states| && states[0].task.Idle? && Knot(states[0].disk.rec, id)
    ensures Knot(states[i].disk.rec, id) && !CheckOk(states[i].disk.rec, None)
  {
    for n := 0 to i
      invariant Knot(states[n].disk.rec, id) && LeavesKnot(states[n].disk.rec, states[n].task, id)
    {
      ActLeavesKnot(states[n], actions[n], states[n + 1], id);
    }
    KnotIsUnsettled(states[i].disk.rec, id);
    Blocked(states[i].disk.rec, id, None);
  }

  /** For every directory, malformed receipts and shared versions included: the check can be made to pass again
      exactly when every name in it is valid and every receipt about itself has another that is about it. */
  lemma RecoverableIff(s: Sys, ids: Ids, tmp: string, journal: string)
    requires s.task.Idle?
    requires FreshIds(s.disk.rec, ids) && FreshName(s.disk.rec, tmp) && tmp !in {ids.version, ids.tmp1, ids.tmp2}
    requires FreshJournal(s.disk.rec, journal)
    ensures (exists states, actions :: Recovers(states, actions, s)) <==>
      NamesValid(s.disk.rec) && Untangled(s.disk.rec)
  {
    if NamesValid(s.disk.rec) && Untangled(s.disk.rec) {
      var states, actions := RecoveryCompletes(s, ids, tmp, journal);
      assert Recovers(states, actions, s);
    } else {
      forall states, actions | Recovers(states, actions, s) ensures false {
        NeverRecovers(states, actions, s);
      }
    }
  }

  lemma NeverRecovers(states: seq<Sys>, actions: seq<Action>, s: Sys)
    requires Path(states, actions) && states[0] == s && s.task.Idle?
    requires !NamesValid(s.disk.rec) || !Untangled(s.disk.rec)
    ensures !CheckOk(states[|actions|].disk.rec, None)
  {
    if name :| name in s.disk.rec && !ValidName(name) {
      InvalidNameStays(states, actions, |actions|, name);
    } else {
      var id :| ReferredBy(s.disk.rec, id, id) && !exists other :: other != id && ReferredBy(s.disk.rec, other, id);
      assert Knot(s.disk.rec, id);
      KnotStays(states, actions, |actions|, id);
    }
  }

  // ---- Every crash recovers

  /** The names that the operation in progress may still add. */
  ghost predicate TaskNamesValid(t: Task) {
    match t
    case Idle => true
    case Publishing(_, _, ids, _, _, after) => IdsValid(ids) && (after.Some? ==> ReviewNamesValid(after.value))
    case Restoring(review, ids, _, _) => IdsValid(ids) && ReviewNamesValid(review)
    case Reviewing(review, _) => ReviewNamesValid(review)
    case Dropping(_, _, journal, tmp, _) => ValidName(journal) && ValidName(tmp)
  }

  predicate IdsValid(ids: Ids) {
    ValidName(ids.version) && ValidName(ids.receipt) && ValidName(ids.tmp1) && ValidName(ids.tmp2)
  }

  predicate ReviewNamesValid(review: Review) {
    ValidName(review.id) && ValidName(review.tmp)
  }

  /** Each step adds at most one name. */
  lemma NamesAdded(rec: Files, rec': Files, name: string)
    requires NamesValid(rec) && rec'.Keys <= rec.Keys + {name} && ValidName(name)
    ensures NamesValid(rec')
  {
    forall n | n in rec' ensures ValidName(n) {
      assert n in rec.Keys + {name};
    }
  }

  lemma PublishKeepsNames(s: Sys)
    requires NamesValid(s.disk.rec) && s.task.Publishing? && TaskNamesValid(s.task)
    ensures NamesValid(Next(s).disk.rec) && TaskNamesValid(Next(s).task)
  {
    var ids := s.task.ids;
    var name := match s.task.at
                case WriteTmp => ids.tmp1
                case WriteDone => ids.tmp2
                case PlacePending => ids.receipt
                case PlaceDone => ids.receipt
                case _ => ids.version;
    NamesAdded(s.disk.rec, Next(s).disk.rec, name);
  }

  lemma NextKeepsNames(s: Sys)
    requires NamesValid(s.disk.rec) && TaskNamesValid(s.task)
    ensures NamesValid(Next(s).disk.rec) && TaskNamesValid(Next(s).task)
  {
    match s.task
    case Publishing(_, _, _, _, _, _) => PublishKeepsNames(s);
    case Reviewing(review, step) =>
      NamesAdded(s.disk.rec, Next(s).disk.rec, if step.WriteResolved? then review.tmp else review.id);
    case Dropping(_, _, journal, tmp, drop) =>
      NamesAdded(s.disk.rec, Next(s).disk.rec, if drop == WriteIntent then tmp else journal);
    case _ =>
  }

  lemma ActKeepsNames(s: Sys, a: Action, s': Sys)
    requires Acts(s, a, s') && NamesValid(s.disk.rec) && TaskNamesValid(s.task)
    ensures NamesValid(s'.disk.rec) && TaskNamesValid(s'.task)
  {
    match a
    case Resolve(id, _, _, _, _, _, _) =>
      if Inspect(s.disk.live, s.disk.rec, id).Ok? {
        Inspected(s.disk, id);
      }
    case Discard(id, _, _, _) =>
      if Inspect(s.disk.live, s.disk.rec, id).Ok? {
        Inspected(s.disk, id);
      }
    case Advance => NextKeepsNames(s);
    case _ =>
  }

  lemma RunsKeepNames(states: seq<Sys>, actions: seq<Action>, i: nat)
    requires Run(states, actions) && i < |states| && NamesValid(states[0].disk.rec)
    ensures NamesValid(states[i].disk.rec)
  {
    for n := 0 to i
      invariant NamesValid(states[n].disk.rec) && TaskNamesValid(states[n].task)
    {
      ActKeepsNames(states[n], actions[n], states[n + 1]);
    }
  }

  /** From whatever state a crash, an operation that gave up or another program left in any run, the owner's operations
      lead back to a passing check, if the names were valid when the run began. */
  lemma EveryIdleStateRecovers(states: seq<Sys>, actions: seq<Action>, i: nat, ids: Ids, tmp: string, journal: string)
    returns (rest: seq<Sys>, later: seq<Action>)
    requires Run(states, actions) && i < |states| && NamesValid(states[0].disk.rec) && states[i].task.Idle?
    requires FreshIds(states[i].disk.rec, ids) && FreshName(states[i].disk.rec, tmp)
    requires tmp !in {ids.version, ids.tmp1, ids.tmp2} && FreshJournal(states[i].disk.rec, journal)
    ensures Recovers(rest, later, states[i]) && forall a :: a in later ==> ByOwner(a)
  {
    RunsStayOk(states, actions, i);
    RunsKeepNames(states, actions, i);
    rest, later := RecoveryCompletes(states[i], ids, tmp, journal);
  }

  // ---- Two directories that never recover

  /** One receipt, resolved and healthy, under a name that is too long. */
  function LongNamed(name: string): Sys {
    Sys(Disk(map[], map[name := Note(Receipt("a", None, None, "v", Resolved, None, None))], {}), Idle)
  }

  lemma OneLongName(name: string)
    requires |name| == NAME_BYTES + 1 && IsJson(name)
    ensures var rec := LongNamed(name).disk.rec; Orderly(rec) && rec.Keys == {name} && !Unsettled(rec, name)
    ensures !exists states, actions :: Recovers(states, actions, LongNamed(name))
  {
    Names.PlainComponent("a");
    Names.PlainComponent("v");
    var rec := LongNamed(name).disk.rec;
    assert "v" != name && Parses(rec[name]);
    forall states, actions | Recovers(states, actions, LongNamed(name)) ensures false {
      InvalidNameStays(states, actions, |actions|, name);
    }
  }

  const SELF := "a.json"

  /** One receipt, being discarded and about itself. */
  function Knotted(): Sys {
    Sys(Disk(map[], map[SELF := Note(Receipt("", None, None, SELF, Discarding, None, None))], {}), Idle)
  }

  lemma OneKnot()
    ensures var rec := Knotted().disk.rec; NamesValid(rec) && Parses(rec[SELF])
    ensures !exists states, actions :: Recovers(states, actions, Knotted())
  {
    Names.PlainComponent(SELF);
    var rec := Knotted().disk.rec;
    assert SELF[1..] == ".json";
    assert Parses(rec[SELF]) && Knot(rec, SELF);
    forall states, actions | Recovers(states, actions, Knotted()) ensures false {
      KnotStays(states, actions, |actions|, SELF);
    }
  }

  // ---- A discard goes on after any crash

  /** While no other program writes, a discard finds its version as it recorded it, or gone. */
  predicate Undisturbed(s: Sys) {
    s.task.Dropping? && s.task.drop != WriteIntent ==>
      At(s.disk.rec, s.task.intent.version) in {None, s.task.intent.expected}
  }

  lemma DiscardStaysUndisturbed(s: Sys)
    requires SysOk(s) && s.task.Dropping? && Undisturbed(s)
    requires s.task.drop == WriteIntent ==> At(s.disk.rec, s.task.intent.version) == s.task.intent.expected
    ensures Undisturbed(Next(s))
  {
    assert DropOk(s.disk, s.task);
  }

  /** A crash before the discard's receipt is in place leaves every token as it was. */
  lemma CrashBeforeIntent(live: Files, rec: Files, tmp: string, r: Receipt, id: string)
    requires FreshName(rec, tmp) && id != tmp
    ensures Inspect(live, rec[tmp := Note(r)], id) == Inspect(live, rec, id)
  {
    var rec' := rec[tmp := Note(r)];
    if IsJson(id) && id in rec && Parses(rec[id]) {
      assert rec[id].receipt.version != tmp;
    } else {
      ArtifactUnaffected(rec, tmp, r, id);
    }
  }

  lemma ArtifactUnaffected(rec: Files, tmp: string, r: Receipt, id: string)
    requires FreshName(rec, tmp) && id != tmp
    ensures InspectArtifact(rec[tmp := Note(r)], id) == InspectArtifact(rec, id)
  {
    var rec' := rec[tmp := Note(r)];
    assert NamesValid(rec') <==> NamesValid(rec) by {
      assert forall n :: n in rec ==> n in rec';
    }
    assert forall n :: n in rec && IsJson(n) ==> n in rec' && rec'[n] == rec[n];
    assert forall n :: n in rec' && IsJson(n) ==> n in rec && rec'[n] == rec[n];
  }

  /** A crash after that leaves the receipt with its recorded token, and the discard repeated with that token may
      start. */
  lemma InterruptedDiscardResumes(s: Sys, token: Token)
    requires SysOk(s) && s.task.Dropping? && (s.task.drop == DeleteVersion || s.task.drop == RemoveIntent)
    requires Undisturbed(s) && s.task.intent.discardToken == Some(token)
    ensures var i := Inspect(s.disk.live, s.disk.rec, s.task.journal); i.Ok? && MayDiscard(i.value, token)
  {
    assert DropOk(s.disk, s.task);
  }

  /** The discard of a version has begun: its receipt says so, and the version is as recorded or gone. */
  ghost predicate Begun(rec: Files, id: string, version: string, token: Token) {
    && id in rec && IsJson(id) && ValidName(id) && Parses(rec[id]) && version != id
    && var r := rec[id].receipt;
       && r.state.Discarding? && r.discardToken == Some(token) && r.version == version
       && At(rec, version) in {None, r.expected}
  }

  ghost predicate GoesOn(rec: Files, t: Task, id: string, version: string, token: Token) {
    t.Idle? ||
    (t.Dropping? && t.journal == id && t.intent.version == version && t.intent.discardToken == Some(token)
     && t.intent.state.Discarding? && Parses(Note(t.intent)) && !IsJson(t.tmp) && t.tmp != version
     && match t.drop
        case WriteIntent => t.tmp !in rec && t.intent.expected == At(rec, version)
        case PlaceIntent => Holds(rec, t.tmp, t.intent) && t.intent.expected == At(rec, version)
        case DeleteVersion => Holds(rec, id, t.intent)
        case RemoveIntent => version !in rec)
  }

  /** Either it goes on, or it is done. */
  ghost predicate Underway(s: Sys, id: string, version: string, token: Token) {
    || (Begun(s.disk.rec, id, version, token) && GoesOn(s.disk.rec, s.task, id, version, token))
    || (s.task.Idle? && id !in s.disk.rec && version !in s.disk.rec)
  }

  /** All other files are as they were. */
  predicate OthersKept(before: Disk, after: Disk, id: string, version: string) {
    && after.live == before.live
    && forall n :: n in before.rec && n != id && n != version ==> n in after.rec && after.rec[n] == before.rec[n]
  }

  /** Nothing but crashes, the discard's own steps, and the same discard asked for again. */
  predicate SameDiscard(a: Action, id: string, token: Token) {
    a.Crash? || a.Advance? || (a.Discard? && a.id == id && a.token == token)
  }

  lemma AskedAgain(s: Sys, a: Action, s': Sys, id: string, version: string, token: Token)
    requires Acts(s, a, s') && a.Discard? && a.id == id && a.token == token && Underway(s, id, version, token)
    requires IsJson(id) && version != id
    ensures Underway(s', id, version, token) && s'.disk == s.disk
  {
  }

  lemma IntentStep(s: Sys, id: string, version: string, token: Token)
    requires Underway(s, id, version, token) && s.task.Dropping? && IsJson(id) && version != id
    requires s.task.drop == WriteIntent || s.task.drop == PlaceIntent
    ensures Underway(Next(s), id, version, token)
  {
    assert s.task.tmp != id;
  }

  lemma DeleteStep(s: Sys, id: string, version: string, token: Token)
    requires Underway(s, id, version, token) && s.task.Dropping? && IsJson(id) && version != id
    requires s.task.drop == DeleteVersion || s.task.drop == RemoveIntent
    ensures Underway(Next(s), id, version, token)
  {
  }

  lemma SameDiscardKeeps(s: Sys, a: Action, s': Sys, id: string, version: string, token: Token)
    requires Acts(s, a, s') && SameDiscard(a, id, token) && Underway(s, id, version, token)
    requires IsJson(id) && version != id
    ensures Underway(s', id, version, token)
  {
    if a.Discard? {
      AskedAgain(s, a, s', id, version, token);
    } else if a.Advance? && s.task.Dropping? {
      if s.task.drop == WriteIntent || s.task.drop == PlaceIntent {
        IntentStep(s, id, version, token);
      } else {
        DeleteStep(s, id, version, token);
      }
    }
  }

  /** Until it is done, the file that the discard's next step writes or renames away is a new one. */
  ghost predicate TmpIsNew(before: Disk, t: Task) {
    t.Dropping? && t.drop in {WriteIntent, PlaceIntent} ==> t.tmp !in before.rec
  }

  lemma DropKeepsOthers(before: Disk, s: Sys, id: string, version: string, token: Token)
    requires Underway(s, id, version, token) && s.task.Dropping? && IsJson(id) && version != id
    requires OthersKept(before, s.disk, id, version) && TmpIsNew(before, s.task)
    ensures OthersKept(before, Next(s).disk, id, version) && TmpIsNew(before, Next(s).task)
  {
  }

  lemma SameDiscardKeepsOthers(before: Disk, s: Sys, a: Action, s': Sys, id: string, version: string, token: Token)
    requires Acts(s, a, s') && SameDiscard(a, id, token) && Underway(s, id, version, token)
    requires OthersKept(before, s.disk, id, version) && TmpIsNew(before, s.task)
    requires IsJson(id) && version != id
    ensures OthersKept(before, s'.disk, id, version) && TmpIsNew(before, s'.task)
  {
    if a.Advance? && s.task.Dropping? {
      DropKeepsOthers(before, s, id, version, token);
    }
  }

  lemma BegunMayResume(d: Disk, id: string, version: string, token: Token)
    requires Begun(d.rec, id, version, token)
    ensures var i := Inspect(d.live, d.rec, id);
      i.Ok? && MayDiscard(i.value, token) && i.value.receipt.version == version && !ReferredBy(d.rec, id, id)
  {
  }

  /** Undisturbed from here, the discard asked for again ends with its version and receipt gone. */
  ghost predicate Completes(s: Sys, id: string, version: string, token: Token) {
    forall journal, tmp :: FreshName(s.disk.rec, tmp) && FreshJournal(s.disk.rec, journal) ==>
      && Acts(s, Discard(id, token, journal, tmp), s.(task := StartDiscard(s, id, token, journal, tmp)))
      && Ends(s.(task := StartDiscard(s, id, token, journal, tmp)), 4, s.disk.live, s.disk.rec - {version, id})
  }

  lemma UnderwayCompletes(s: Sys, id: string, version: string, token: Token)
    requires Underway(s, id, version, token) && s.task.Idle? && id in s.disk.rec
    ensures Completes(s, id, version, token)
  {
    BegunMayResume(s.disk, id, version, token);
    forall journal, tmp | FreshName(s.disk.rec, tmp) && FreshJournal(s.disk.rec, journal)
      ensures Ends(s.(task := StartDiscard(s, id, token, journal, tmp)), 4, s.disk.live, s.disk.rec - {version, id})
    {
      DiscardCompletes(s, id, token, journal, tmp);
    }
  }

  /** In any directory, once a discard's receipt is in place and however often it crashes and is asked for again with
      its recorded token: all other files stay as they are, and whenever nothing is in progress either the version and
      the receipt are both gone, or the same token starts the discard again and it can run to that end. */
  lemma BegunDiscardCompletes(states: seq<Sys>, actions: seq<Action>, i: nat, j: nat,
                              id: string, version: string, token: Token)
    requires Path(states, actions) && i <= j < |states| && Underway(states[i], id, version, token)
    requires IsJson(id) && version != id && TmpIsNew(states[i].disk, states[i].task)
    requires forall n {:trigger actions[n]} :: i <= n < j ==> SameDiscard(actions[n], id, token)
    ensures OthersKept(states[i].disk, states[j].disk, id, version)
    ensures states[j].task.Idle? ==>
      || (id !in states[j].disk.rec && version !in states[j].disk.rec)
      || (id in states[j].disk.rec && Completes(states[j], id, version, token))
  {
    for n := i to j
      invariant Underway(states[n], id, version, token)
      invariant OthersKept(states[i].disk, states[n].disk, id, version) && TmpIsNew(states[i].disk, states[n].task)
    {
      SameDiscardKeepsOthers(states[i].disk, states[n], actions[n], states[n + 1], id, version, token);
      SameDiscardKeeps(states[n], actions[n], states[n + 1], id, version, token);
    }
    if states[j].task.Idle? && id in states[j].disk.rec {
      UnderwayCompletes(states[j], id, version, token);
    }
  }

  /** So in every run, from the moment the receipt is placed. */
  lemma InterruptedDiscardCompletes(states: seq<Sys>, actions: seq<Action>, i: nat, j: nat, token: Token)
    requires Run(states, actions) && i <= j < |states| && states[i].task.Dropping?
    requires states[i].task.drop == DeleteVersion && Undisturbed(states[i])
    requires states[i].task.intent.discardToken == Some(token)
    requires forall n {:trigger actions[n]} :: i <= n < j ==> SameDiscard(actions[n], states[i].task.journal, token)
    ensures var id, version := states[i].task.journal, states[i].task.intent.version;
      && OthersKept(states[i].disk, states[j].disk, id, version)
      && (states[j].task.Idle? ==>
            || (id !in states[j].disk.rec && version !in states[j].disk.rec)
            || (id in states[j].disk.rec && Completes(states[j], id, version, token)))
  {
    RunsStayOk(states, actions, i);
    assert DropOk(states[i].disk, states[i].task);
    BegunDiscardCompletes(states, actions, i, j, states[i].task.journal, states[i].task.intent.version, token);
  }
}
