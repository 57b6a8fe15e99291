/** Syncs of two pin trees one after another (src/pin.rs, `sync` and `sync_with_peer`). The changes are applied, both
    trees are looked at again, and the merge is recorded as baseline on one side and then on the other. Either tree
    may be edited, and a sync may stop, between any two steps. */
module PinSync {
  import opened Types
  import opened PinPlan
  import Names

  datatype Phase =
    | Idle
    | Applying(changes: seq<Change>, merged: Manifest)
    | Recording(merged: Manifest)
    | HalfRecorded(merged: Manifest, onLocal: bool)

  /** Each side has a tree, and a baseline for the other side. */
  datatype State = State(trees: Trees, local: Manifest, remote: Manifest, phase: Phase)

  /** Either side may start a sync, and so either may be the first to record. */
  datatype Action =
    | Begin(changes: seq<Change>, merged: Manifest)
    | ApplyNext
    | Verify
    | RecordFirst(onLocal: bool)
    | RecordSecond
    | Edit(trees: Trees)
    | Stop

  /** What a plan that is not refused promises. */
  ghost predicate Plans(t: Trees, baseline: Manifest, changes: seq<Change>, merged: Manifest) {
    && Mergeable(t.local, t.remote, baseline) && merged == Merged(t.local, t.remote, baseline) && Ordered(changes)
    && (forall c :: c in changes ==> Brings(t.local, t.remote, merged, c) && c.expected != c.replacement)
    && (forall p :: Get(t.local, p) != Get(t.remote, p) ==> exists c :: c in changes && c.path == p)
  }

  function Baseline(s: State): Option<Manifest> {
    CommonBaseline(s.local, s.remote, s.trees.local, s.trees.remote)
  }

  /** A change is applied if both sides still are as it was planned for. */
  predicate StillFits(t: Trees, c: Change) {
    && Get(if c.toRemote then t.local else t.remote, c.path) == c.replacement
    && Get(if c.toRemote then t.remote else t.local, c.path) in {c.expected, c.replacement}
  }

  function Record(s: State, onLocal: bool, merged: Manifest, phase: Phase): State {
    if onLocal then s.(local := merged, phase := phase) else s.(remote := merged, phase := phase)
  }

  function AfterApply(s: State): State
    requires s.phase.Applying? && s.phase.changes != []
  {
    var c, rest := s.phase.changes[0], s.phase.changes[1..];
    if StillFits(s.trees, c) then s.(trees := Applied(s.trees, c), phase := Applying(rest, s.phase.merged))
    else s.(phase := Idle)
  }

  /** A change overwrites exactly what it was planned to overwrite with what the other side still has; whatever was
      edited in between is left alone, and so is every other path. */
  lemma MeanwhileEditsStay(s: State)
    requires s.phase.Applying? && s.phase.changes != []
    ensures var c, t, t' := s.phase.changes[0], s.trees, AfterApply(s).trees;
      && (t' != t ==>
            && Get(if c.toRemote then t.remote else t.local, c.path) == c.expected
            && Get(if c.toRemote then t.local else t.remote, c.path) == c.replacement
            && Get(if c.toRemote then t'.remote else t'.local, c.path) == c.replacement)
      && (if c.toRemote then t'.local == t.local else t'.remote == t.remote)
      && forall p :: p != c.path ==> Get(t'.local, p) == Get(t.local, p) && Get(t'.remote, p) == Get(t.remote, p)
  {
    var c := s.phase.changes[0];
    var side := if c.toRemote then s.trees.remote else s.trees.local;
    if Get(side, c.path) == c.replacement {
      assert Put(side, c.path, c.replacement) == side;
    }
  }

  function AfterVerify(s: State): State
    requires s.phase.Applying?
  {
    var m := s.phase.merged;
    s.(phase := if s.trees == Trees(m, m) then Recording(m) else Idle)
  }

  ghost predicate Steps(s: State, a: Action, s': State) {
    match a
    case Begin(changes, merged) =>
      && s.phase.Idle? && Baseline(s).Some? && Plans(s.trees, Baseline(s).value, changes, merged)
      && s' == s.(phase := Applying(changes, merged))
    case ApplyNext => s.phase.Applying? && s.phase.changes != [] && s' == AfterApply(s)
    case Verify => s.phase.Applying? && s.phase.changes == [] && s' == AfterVerify(s)
    case RecordFirst(onLocal) =>
      s.phase.Recording? && s' == Record(s, onLocal, s.phase.merged, HalfRecorded(s.phase.merged, onLocal))
    case RecordSecond =>
      s.phase.HalfRecorded? && s' == Record(s, !s.phase.onLocal, s.phase.merged, Idle)
    case Edit(trees) => s' == s.(trees := trees)
    case Stop => s' == s.(phase := Idle)
  }

  ghost predicate Run(states: seq<State>, actions: seq<Action>) {
    && |states| == |actions| + 1 && states[0].phase.Idle? && states[0].local == states[0].remote
    && forall i {:trigger actions[i]} :: 0 <= i < |actions| ==> Steps(states[i], actions[i], states[i + 1])
  }

  // ---- When the baselines differ

  function Own(s: State, onLocal: bool): Manifest {
    if onLocal then s.local else s.remote
  }

  /** Step n recorded a merge on one side, and it was news to the other. */
  predicate HalfOf(s: State, a: Action) {
    a.RecordFirst? && s.phase.Recording? && s.phase.merged != Own(s, !a.onLocal)
  }

  /** That recording, at step n, is the last one before i. */
  ghost predicate Interrupted(states: seq<State>, actions: seq<Action>, n: nat, i: nat)
    requires |states| == |actions| + 1
  {
    && n < i <= |actions| && HalfOf(states[n], actions[n])
    && forall m {:trigger actions[m]} :: n < m < i ==> !actions[m].RecordFirst? && !actions[m].RecordSecond?
  }

  lemma OtherStepsKeepBaselines(s: State, a: Action, s': State)
    requires Steps(s, a, s') && !a.RecordFirst? && !a.RecordSecond?
    ensures s'.local == s.local && s'.remote == s.remote
    ensures s'.phase.HalfRecorded? ==> s'.phase == s.phase
  {
  }

  lemma StillInterrupted(states: seq<State>, actions: seq<Action>, n: nat, i: nat)
    requires |states| == |actions| + 1 && i < |actions|
    ensures Interrupted(states, actions, n, i + 1) <==>
      if actions[i].RecordFirst? || actions[i].RecordSecond? then n == i && HalfOf(states[i], actions[i])
      else Interrupted(states, actions, n, i)
  {
    if n == i {
    } else if Interrupted(states, actions, n, i + 1) {
      assert actions[i] == actions[i];
    } else if Interrupted(states, actions, n, i) && !actions[i].RecordFirst? && !actions[i].RecordSecond? {
      forall m | n < m < i + 1 ensures !actions[m].RecordFirst? && !actions[m].RecordSecond? {
        assert m < i || m == i;
      }
    }
  }

  /** The baselines before step i, in terms of the last recording. */
  ghost predicate BaselinesAre(states: seq<State>, actions: seq<Action>, i: nat)
    requires |states| == |actions| + 1 && i <= |actions|
  {
    var s := states[i];
    && (s.phase.HalfRecorded? ==> Own(s, s.phase.onLocal) == s.phase.merged)
    && (s.local != s.remote ==> exists n: nat :: Interrupted(states, actions, n, i))
    && (forall n: nat :: Interrupted(states, actions, n, i) ==>
          var m, side := states[n].phase.merged, actions[n].onLocal;
          Own(s, side) == m && Own(s, !side) == Own(states[n], !side) && Own(s, !side) != m)
  }

  lemma StepBaselines(states: seq<State>, actions: seq<Action>, i: nat)
    requires |states| == |actions| + 1 && i < |actions| && Steps(states[i], actions[i], states[i + 1])
    requires BaselinesAre(states, actions, i)
    ensures BaselinesAre(states, actions, i + 1)
  {
    var s, a, s' := states[i], actions[i], states[i + 1];
    forall n: nat | true
      ensures Interrupted(states, actions, n, i + 1) <==>
        if a.RecordFirst? || a.RecordSecond? then n == i && HalfOf(s, a) else Interrupted(states, actions, n, i)
    {
      StillInterrupted(states, actions, n, i);
    }
    if a.RecordFirst? {
      assert s'.local != s'.remote ==> Interrupted(states, actions, i, i + 1);
    } else if a.RecordSecond? {
      assert s'.local == s'.remote;
    } else {
      OtherStepsKeepBaselines(s, a, s');
      if s.local != s.remote {
        var n: nat :| Interrupted(states, actions, n, i);
        assert Interrupted(states, actions, n, i + 1);
      }
    }
  }

  lemma {:induction false} BaselinesInRun(states: seq<State>, actions: seq<Action>, i: nat)
    requires Run(states, actions) && i <= |actions|
    ensures BaselinesAre(states, actions, i)
    decreases i
  {
    if i > 0 {
      BaselinesInRun(states, actions, i - 1);
      assert Steps(states[i - 1], actions[i - 1], states[i - 1 + 1]);
      StepBaselines(states, actions, i - 1);
    }
  }

  /** In every run the two baselines differ exactly while a recording is interrupted. One is its merge then, and
      the other still what it was before. */
  lemma BaselinesDifferIff(states: seq<State>, actions: seq<Action>, i: nat)
    requires Run(states, actions) && i <= |actions|
    ensures states[i].local != states[i].remote <==> exists n: nat :: Interrupted(states, actions, n, i)
    ensures forall n: nat :: Interrupted(states, actions, n, i) ==>
      && Own(states[i], actions[n].onLocal) == states[n].phase.merged
      && Own(states[i], !actions[n].onLocal) == Own(states[n], !actions[n].onLocal)
  {
    BaselinesInRun(states, actions, i);
  }

  /** No baseline is found for the next sync, and so it is refused whatever it would merge. */
  predicate BaselineRefused(s: State) {
    s.phase.Idle? && Baseline(s).None?
  }

  /** In every run the next sync is refused for want of a baseline exactly when the last recording reached one side
      only, its merge was not the other side's baseline already, and the trees differ now. */
  lemma NextSyncRefusedIff(states: seq<State>, actions: seq<Action>, i: nat)
    requires Run(states, actions) && i <= |actions| && states[i].phase.Idle?
    ensures BaselineRefused(states[i]) <==>
      (exists n: nat :: Interrupted(states, actions, n, i)) && states[i].trees.local != states[i].trees.remote
  {
    BaselinesDifferIff(states, actions, i);
  }

  // ---- Going on after a stop

  lemma NothingToMerge(m: Manifest, baseline: Manifest)
    requires forall p :: p in m || p in baseline ==> ValidPath(p)
    ensures Plans(Trees(m, m), baseline, [], m)
  {
    forall p | true ensures Get(Merged(m, m, baseline), p) == Get(m, p) {
      MergedAt(m, m, baseline, p);
    }
    SameManifest(Merged(m, m, baseline), m);
  }

  /** Once both trees are the same, the next sync starts whatever was recorded, has nothing to change, and makes the
      baselines agree again. */
  lemma EqualTreesResume(s: State, m: Manifest, onLocal: bool) returns (states: seq<State>, actions: seq<Action>)
    requires s.phase.Idle? && s.trees == Trees(m, m)
    requires forall p :: p in m || p in s.local ==> ValidPath(p)
    ensures |states| == 5 && |actions| == 4 && states[0] == s
    ensures forall i :: 0 <= i < 4 ==> Steps(states[i], actions[i], states[i + 1])
    ensures states[4] == s.(local := m, remote := m)
  {
    NothingToMerge(m, Baseline(s).value);
    actions := [Begin([], m), Verify, RecordFirst(onLocal), RecordSecond];
    states := [s, s.(phase := Applying([], m)), s.(phase := Recording(m)),
               Record(s, onLocal, m, HalfRecorded(m, onLocal)), s.(local := m, remote := m)];
    assert Steps(states[0], actions[0], states[1]);
    assert Steps(states[1], actions[1], states[2]);
    assert Steps(states[2], actions[2], states[3]);
    assert Steps(states[3], actions[3], states[4]);
  }

  // ---- What the owner can do about a refused sync

  /** The inspection shows this path as a conflict. */
  predicate Reported(s: State, p: string) {
    var l, r := Get(s.trees.local, p), Get(s.trees.remote, p);
    var a, b := Get(s.local, p), Get(s.remote, p);
    l != r && (a != b || (l != a && r != a))
  }

  /** The owner took the other side's version of every path shown, one after another. */
  function AllTaken(s: State): State {
    var keys := s.trees.local.Keys + s.trees.remote.Keys;
    var taken := (p: string) => if Reported(s, p) then Get(s.trees.remote, p) else Get(s.trees.local, p);
    s.(trees := s.trees.(local := map p | p in keys && taken(p).Some? :: taken(p).value))
  }

  lemma TakenAt(s: State, p: string)
    ensures Get(AllTaken(s).trees.local, p) == Get(if Reported(s, p) then s.trees.remote else s.trees.local, p)
  {
  }

  /** Taking everything that the inspection shows lets the next sync start exactly when it showed every path in which
      the trees differ: a one-sided edit of a path that both baselines have alike is not shown. */
  lemma TakingReportedResumesIff(s: State)
    requires BaselineRefused(s)
    ensures !BaselineRefused(AllTaken(s)) <==>
      forall p :: Get(s.trees.local, p) != Get(s.trees.remote, p) ==> Reported(s, p)
  {
    var t := AllTaken(s).trees;
    if forall p :: Get(s.trees.local, p) != Get(s.trees.remote, p) ==> Reported(s, p) {
      forall p | true ensures Get(t.local, p) == Get(t.remote, p) {
        TakenAt(s, p);
      }
      SameManifest(t.local, t.remote);
    } else {
      var p :| Get(s.trees.local, p) != Get(s.trees.remote, p) && !Reported(s, p);
      TakenAt(s, p);
    }
  }

  // ---- One sync that is refused

  const A := "a"
  const B := "b"

  /** One file with the given contents. */
  function Alone(text: string): Manifest {
    map[A := Fingerprint(text, 0x1A4)]
  }

  function WithB(m: Manifest): Manifest {
    m[B := Fingerprint("", 0x1A4)]
  }

  lemma ShortPath(p: string)
    requires p == A || p == B
    ensures ValidPath(p)
  {
    Names.PlainComponent(p);
  }

  /** The file of one side is edited, and its sync stops between the two recordings. */
  function Stopped(was: string, edited: string): State {
    State(Trees(Alone(edited), Alone(edited)), Alone(edited), Alone(was), Idle)
  }

  lemma EditPlans(was: string, edited: string)
    requires was != edited
    ensures Plans(Trees(Alone(edited), Alone(was)), Alone(was),
                  [Change(A, Some(Alone(was)[A]), Some(Alone(edited)[A]), true)], Alone(edited))
  {
    ShortPath(A);
    var l, r := Alone(edited), Alone(was);
    forall p | true ensures Get(Merged(l, r, r), p) == Get(l, p) {
      MergedAt(l, r, r, p);
    }
    SameManifest(Merged(l, r, r), l);
    var c := Change(A, Some(r[A]), Some(l[A]), true);
    forall p | Get(l, p) != Get(r, p) ensures exists c' :: c' in [c] && c'.path == p {
      assert c in [c] && c.path == p;
    }
  }

  lemma ReachStopped(was: string, edited: string) returns (states: seq<State>, actions: seq<Action>)
    requires was != edited
    ensures Run(states, actions) && |actions| == 6 && states[6] == Stopped(was, edited)
  {
    var l, r := Alone(edited), Alone(was);
    var c := Change(A, Some(r[A]), Some(l[A]), true);
    var s := State(Trees(l, r), r, r, Idle);
    EditPlans(was, edited);
    assert [c][1..] == [];
    states := [State(Trees(r, r), r, r, Idle), s, s.(phase := Applying([c], l)),
               State(Trees(l, l), r, r, Applying([], l)), State(Trees(l, l), r, r, Recording(l)),
               State(Trees(l, l), l, r, HalfRecorded(l, true)), Stopped(was, edited)];
    actions := [Edit(s.trees), Begin([c], l), ApplyNext, Verify, RecordFirst(true), Stop];
    assert Put(r, A, c.replacement) == l;
    assert Steps(states[0], actions[0], states[1]) && Steps(states[1], actions[1], states[2]);
    assert Steps(states[2], actions[2], states[3]) && Steps(states[3], actions[3], states[4]);
    assert Steps(states[4], actions[4], states[5]) && Steps(states[5], actions[5], states[6]);
  }

  /** Afterwards a second file is added on one side. Nothing is in conflict, and the inspection shows nothing; but the
      next sync is refused. */
  lemma OneRefusedSync(was: string, edited: string) returns (states: seq<State>, actions: seq<Action>)
    requires was != edited
    ensures Run(states, actions) && |actions| == 7
    ensures var s := states[7];
      && BaselineRefused(s) && s.trees == Trees(WithB(Alone(edited)), Alone(edited))
      && forall p :: !Reported(s, p)
  {
    states, actions := ReachStopped(was, edited);
    var trees := Trees(WithB(Alone(edited)), Alone(edited));
    var s := Stopped(was, edited).(trees := trees);
    assert Steps(states[6], Edit(trees), s);
    assert B in trees.local && B !in trees.remote;
    assert s.local[A] != s.remote[A];
    states, actions := states + [s], actions + [Edit(trees)];
  }
}
