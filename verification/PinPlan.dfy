/** The three-way merge of two pin trees and their common baseline (src/pin.rs). */
module PinPlan {
  import opened Types
  import opened Names

  const RECOVERY := ".clix-recovery"

  datatype Fingerprint = Fingerprint(hash: string, mode: nat)
  type Manifest = map<string, Fingerprint>
  datatype Change = Change(path: string, expected: Option<Fingerprint>, replacement: Option<Fingerprint>,
      toRemote: bool)

  function Get(m: Manifest, p: string): Option<Fingerprint> {
    if p in m then Some(m[p]) else None
  }

  function Put(m: Manifest, p: string, f: Option<Fingerprint>): Manifest {
    if f.Some? then m[p := f.value] else m - {p}
  }

  predicate ValidPath(p: string) {
    && p != ""
    && (forall c :: c in Components(p) ==> c.Normal?)
    && RECOVERY !in Split(p) && ".git" !in Split(p)
  }

  /** A path that stays inside the tree and out of the recovery directory and of repository metadata. */
  ghost predicate Inside(p: string) {
    && p != "" && p[0] != '/' && p != "." && !("./" <= p)
    && !HasPart(p, "..") && !HasPart(p, ".git") && !HasPart(p, ".clix-recovery")
  }

  lemma ValidPathIff(p: string)
    ensures ValidPath(p) <==> Inside(p)
  {
    if p != "" {
      DownwardIff(p);
      SplitParts(p, ".git");
      SplitParts(p, ".clix-recovery");
    }
  }

  // ---- What the merge should be, path by path

  predicate Conflicts(local: Manifest, remote: Manifest, baseline: Manifest, p: string) {
    var l, r, b := Get(local, p), Get(remote, p), Get(baseline, p);
    l != r && l != b && r != b
  }

  /** The side that changed since the baseline. */
  function Chosen(local: Manifest, remote: Manifest, baseline: Manifest, p: string): Option<Fingerprint> {
    if Get(local, p) == Get(baseline, p) then Get(remote, p) else Get(local, p)
  }

  function Paths(local: Manifest, remote: Manifest, baseline: Manifest): set<string> {
    local.Keys + remote.Keys + baseline.Keys
  }

  predicate Refuses(local: Manifest, remote: Manifest, baseline: Manifest, p: string) {
    !ValidPath(p) || Conflicts(local, remote, baseline, p)
  }

  function Merged(local: Manifest, remote: Manifest, baseline: Manifest): Manifest {
    map p | p in local.Keys + remote.Keys && Chosen(local, remote, baseline, p).Some? ::
        Chosen(local, remote, baseline, p).value
  }

  /** A change overwrites exactly what the outdated side has with exactly what was chosen. */
  predicate Brings(local: Manifest, remote: Manifest, merged: Manifest, c: Change) {
    && c.replacement == Get(merged, c.path)
    && c.expected == Get(if c.toRemote then remote else local, c.path)
    && c.replacement == Get(if c.toRemote then local else remote, c.path)
  }

  ghost predicate Ordered(changes: seq<Change>) {
    forall i, j :: 0 <= i < j < |changes| ==> Less(changes[i].path, changes[j].path)
  }

  datatype Planned = Planned(changes: seq<Change>, merged: Manifest) | Refused(path: string, conflict: bool)

  function ChangeAt(local: Manifest, remote: Manifest, baseline: Manifest, p: string): Change {
    if Get(local, p) == Get(baseline, p) then Change(p, Get(local, p), Get(remote, p), false)
    else Change(p, Get(remote, p), Get(local, p), true)
  }

  /** The loop's two results after some of the paths. */
  function ChangesAmong(local: Manifest, remote: Manifest, baseline: Manifest, paths: seq<string>): seq<Change> {
    if paths == [] then [] else
    var rest, p := ChangesAmong(local, remote, baseline, paths[..|paths| - 1]), paths[|paths| - 1];
    if Get(local, p) == Get(remote, p) then rest else rest + [ChangeAt(local, remote, baseline, p)]
  }

  function MergedAmong(local: Manifest, remote: Manifest, baseline: Manifest, paths: seq<string>): Manifest {
    if paths == [] then map[] else
    var rest, p := MergedAmong(local, remote, baseline, paths[..|paths| - 1]), paths[|paths| - 1];
    if Chosen(local, remote, baseline, p).Some? then rest[p := Chosen(local, remote, baseline, p).value] else rest
  }

  lemma {:induction false} MergedAmongAt(local: Manifest, remote: Manifest, baseline: Manifest, paths: seq<string>,
                                         p: string)
    requires Ascending(paths)
    ensures Get(MergedAmong(local, remote, baseline, paths), p)
         == if p in paths then Chosen(local, remote, baseline, p) else None
  {
    if paths != [] {
      var n, q := |paths| - 1, paths[|paths| - 1];
      MergedAmongAt(local, remote, baseline, paths[..n], p);
      assert paths == paths[..n] + [q];
      if p in paths[..n] {
        LastIsGreatest(paths, p);
        LessIrreflexive(p);
      }
    }
  }

  lemma LastIsGreatest(paths: seq<string>, q: string)
    requires Ascending(paths) && paths != [] && q in paths[..|paths| - 1]
    ensures Less(q, paths[|paths| - 1])
  {
    var i :| 0 <= i < |paths| - 1 && paths[i] == q;
  }

  lemma {:induction false} ChangesBring(local: Manifest, remote: Manifest, baseline: Manifest, paths: seq<string>)
    requires Ascending(paths) && forall p :: p in paths ==> !Refuses(local, remote, baseline, p)
    ensures var changes := ChangesAmong(local, remote, baseline, paths);
      && Ordered(changes)
      && (forall c :: c in changes ==>
            c.path in paths && c == ChangeAt(local, remote, baseline, c.path)
                && Get(local, c.path) != Get(remote, c.path))
      && (forall p :: p in paths && Get(local, p) != Get(remote, p) ==> ChangeAt(local, remote, baseline, p) in changes)
  {
    if paths != [] {
      var n, p := |paths| - 1, paths[|paths| - 1];
      ChangesBring(local, remote, baseline, paths[..n]);
      var rest := ChangesAmong(local, remote, baseline, paths[..n]);
      assert forall q :: q in paths <==> q in paths[..n] || q == p by {
        assert paths == paths[..n] + [p];
      }
      forall i | 0 <= i < |rest| ensures Less(rest[i].path, p) {
        assert rest[i] in rest;
        LastIsGreatest(paths, rest[i].path);
      }
    }
  }

  lemma Brought(local: Manifest, remote: Manifest, baseline: Manifest, p: string)
    requires !Refuses(local, remote, baseline, p) && Get(local, p) != Get(remote, p)
    ensures var c := ChangeAt(local, remote, baseline, p);
      Brings(local, remote, Merged(local, remote, baseline), c) && c.expected != c.replacement && c.path == p
  {
  }

  /** The path is the least one that cannot be merged. */
  ghost predicate FirstRefused(local: Manifest, remote: Manifest, baseline: Manifest, path: string) {
    && path in Paths(local, remote, baseline) && Refuses(local, remote, baseline, path)
    && forall p :: p in Paths(local, remote, baseline) && Refuses(local, remote, baseline, p) ==>
        p == path || Less(path, p)
  }

  lemma RefusedFirst(local: Manifest, remote: Manifest, baseline: Manifest, list: seq<string>, i: nat)
    requires Ascending(list) && i < |list| && (forall p :: p in list <==> p in Paths(local, remote, baseline))
    requires forall p :: p in list[..i] ==> !Refuses(local, remote, baseline, p)
    ensures Refuses(local, remote, baseline, list[i]) ==> FirstRefused(local, remote, baseline, list[i])
  {
    forall q | q in list && q !in list[..i] ensures q == list[i] || Less(list[i], q) {
      assert list == list[..i] + list[i..];
      var j :| 0 <= j < |list[i..]| && list[i..][j] == q;
      assert list[i + j] == q;
    }
  }

  lemma OneMoreChange(local: Manifest, remote: Manifest, baseline: Manifest, list: seq<string>, i: nat)
    requires i < |list|
    ensures var p := list[i];
      ChangesAmong(local, remote, baseline, list[..i + 1])
      == ChangesAmong(local, remote, baseline, list[..i])
         + (if Get(local, p) == Get(remote, p) then [] else [ChangeAt(local, remote, baseline, p)])
  {
    assert list[..i + 1][..i] == list[..i];
  }

  lemma OneMoreEntry(local: Manifest, remote: Manifest, baseline: Manifest, list: seq<string>, i: nat)
    requires i < |list|
    ensures var p := list[i];
      && MergedAmong(local, remote, baseline, list[..i + 1])
           == (var m := MergedAmong(local, remote, baseline, list[..i]);
               if Chosen(local, remote, baseline, p).Some? then m[p := Chosen(local, remote, baseline, p).value] else m)
      && (forall q :: q in list[..i + 1] <==> q in list[..i] || q == p)
  {
    assert list[..i + 1][..i] == list[..i];
    assert list[..i + 1] == list[..i] + [list[i]];
  }

  lemma PlanFits(local: Manifest, remote: Manifest, baseline: Manifest, paths: seq<string>)
    requires Ascending(paths) && (forall p :: p in paths <==> p in Paths(local, remote, baseline))
    requires forall p :: p in paths ==> !Refuses(local, remote, baseline, p)
    ensures var changes := ChangesAmong(local, remote, baseline, paths);
      var merged := MergedAmong(local, remote, baseline, paths);
      && merged == Merged(local, remote, baseline) && Ordered(changes)
      && (forall c :: c in changes ==> Brings(local, remote, merged, c) && c.expected != c.replacement)
      && (forall p :: Get(local, p) != Get(remote, p) ==> exists c :: c in changes && c.path == p)
  {
    ChangesBring(local, remote, baseline, paths);
    var changes, merged := ChangesAmong(local, remote, baseline, paths), MergedAmong(local, remote, baseline, paths);
    forall p | true
      ensures Get(merged, p) == if p in Paths(local, remote, baseline) then Chosen(local, remote, baseline, p) else None
    {
      MergedAmongAt(local, remote, baseline, paths, p);
    }
    MergedEverywhere(local, remote, baseline, merged);
    forall c | c in changes ensures Brings(local, remote, merged, c) && c.expected != c.replacement {
      Brought(local, remote, baseline, c.path);
    }
    forall p | Get(local, p) != Get(remote, p) ensures exists c :: c in changes && c.path == p {
      assert p in paths;
      assert ChangeAt(local, remote, baseline, p) in changes;
    }
  }

  lemma PlannedInside(local: Manifest, remote: Manifest, baseline: Manifest, r: Planned)
    requires r.Planned? && forall p :: p in Paths(local, remote, baseline) ==> !Refuses(local, remote, baseline, p)
    requires r.merged == Merged(local, remote, baseline)
    requires forall c :: c in r.changes ==> Brings(local, remote, r.merged, c) && c.expected != c.replacement
    ensures forall c :: c in r.changes ==> Inside(c.path)
    ensures forall p :: p in r.merged ==> Inside(p)
  {
    forall p | p in Paths(local, remote, baseline) ensures Inside(p) {
      ValidPathIff(p);
    }
  }

  /** The comparison of one path on both sides and in the baseline. */
  method Merge(local: Manifest, remote: Manifest, baseline: Manifest, p: string)
    returns (conflict: bool, change: Option<Change>, selected: Option<Fingerprint>)
    ensures conflict <==> Conflicts(local, remote, baseline, p)
    ensures !conflict ==> selected == Chosen(local, remote, baseline, p)
    ensures !conflict ==>
      change == if Get(local, p) == Get(remote, p) then None else Some(ChangeAt(local, remote, baseline, p))
  {
    var l, r, base := Get(local, p), Get(remote, p), Get(baseline, p);
    conflict, change, selected := false, None, None;
    if l == r {
      selected := l;
    } else if l == base {
      change, selected := Some(Change(p, l, r, false)), r;
    } else if r == base {
      change, selected := Some(Change(p, r, l, true)), l;
    } else {
      conflict := true;
    }
  }

  /** The loop over the paths, in order. */
  method PlanOver(local: Manifest, remote: Manifest, baseline: Manifest, paths: seq<string>) returns (r: Planned)
    requires Ascending(paths) && (forall p :: p in paths <==> p in Paths(local, remote, baseline))
    ensures r.Refused? ==> FirstRefused(local, remote, baseline, r.path) && (r.conflict <==> ValidPath(r.path))
    ensures r.Planned? ==>
      && (forall p :: p in paths ==> !Refuses(local, remote, baseline, p))
      && r.changes == ChangesAmong(local, remote, baseline, paths)
      && r.merged == MergedAmong(local, remote, baseline, paths)
  {
    var changes: seq<Change>, merged: Manifest := [], map[];
    var i := 0;
    while i < |paths|
      invariant i <= |paths|
      invariant forall p :: p in paths[..i] ==> !Refuses(local, remote, baseline, p)
      invariant changes == ChangesAmong(local, remote, baseline, paths[..i])
      invariant merged == MergedAmong(local, remote, baseline, paths[..i])
    {
      var p := paths[i];
      RefusedFirst(local, remote, baseline, paths, i);
      OneMoreChange(local, remote, baseline, paths, i);
      OneMoreEntry(local, remote, baseline, paths, i);
      if !ValidPath(p) {
        return Refused(p, false);
      }
      var conflict, change, selected := Merge(local, remote, baseline, p);
      if conflict {
        return Refused(p, true);
      }
      if change.Some? {
        changes := changes + [change.value];
      } else {
        assert changes + [] == changes;
      }
      if selected.Some? {
        merged := merged[p := selected.value];
      }
      i := i + 1;
    }
    assert paths[..i] == paths;
    return Planned(changes, merged);
  }

  /** The plan is refused at the least path that is invalid or changed on both sides, and only
      there; otherwise it holds one change for each differing path, in order, and the merge. */
  method Plan(local: Manifest, remote: Manifest, baseline: Manifest) returns (r: Planned)
    ensures r.Refused? <==> exists p :: p in Paths(local, remote, baseline) && Refuses(local, remote, baseline, p)
    ensures r.Refused? ==> FirstRefused(local, remote, baseline, r.path) && (r.conflict <==> ValidPath(r.path))
    ensures r.Planned? ==>
      && r.merged == Merged(local, remote, baseline) && Ordered(r.changes)
      && (forall c :: c in r.changes ==> Brings(local, remote, r.merged, c) && c.expected != c.replacement)
      && (forall p :: Get(local, p) != Get(remote, p) ==> exists c :: c in r.changes && c.path == p)
    ensures r.Planned? ==>
      (forall c :: c in r.changes ==> Inside(c.path)) && (forall p :: p in r.merged ==> Inside(p))
  {
    var paths := Sorted(Paths(local, remote, baseline));
    r := PlanOver(local, remote, baseline, paths);
    if r.Planned? {
      PlanFits(local, remote, baseline, paths);
      PlannedInside(local, remote, baseline, r);
    }
  }

  lemma MergedEverywhere(local: Manifest, remote: Manifest, baseline: Manifest, merged: Manifest)
    requires forall p ::
      Get(merged, p) == if p in Paths(local, remote, baseline) then Chosen(local, remote, baseline, p) else None
    ensures merged == Merged(local, remote, baseline)
  {
    forall p | true ensures p in merged <==> p in Merged(local, remote, baseline) {
      assert Get(merged, p) == if p in Paths(local, remote, baseline) then Chosen(local, remote, baseline, p) else None;
    }
    forall p | p in merged ensures merged[p] == Merged(local, remote, baseline)[p] {
      assert Get(merged, p).value == merged[p];
    }
  }

  lemma MergedAt(local: Manifest, remote: Manifest, baseline: Manifest, p: string)
    ensures Get(Merged(local, remote, baseline), p) == Chosen(local, remote, baseline, p)
  {
  }

  // ---- Laws of the merge

  ghost predicate Mergeable(local: Manifest, remote: Manifest, baseline: Manifest) {
    forall p :: p in Paths(local, remote, baseline) ==> !Refuses(local, remote, baseline, p)
  }

  /** Every edit or deletion made on one side is in the merge, and so is what both sides agree on. */
  lemma OneSidedEditsKept(local: Manifest, remote: Manifest, baseline: Manifest, p: string)
    requires Mergeable(local, remote, baseline)
    ensures Get(remote, p) == Get(baseline, p) ==> Get(Merged(local, remote, baseline), p) == Get(local, p)
    ensures Get(local, p) == Get(baseline, p) ==> Get(Merged(local, remote, baseline), p) == Get(remote, p)
    ensures Get(local, p) == Get(remote, p) ==> Get(Merged(local, remote, baseline), p) == Get(local, p)
    ensures Get(Merged(local, remote, baseline), p) in {Get(local, p), Get(remote, p)}
  {
    MergedAt(local, remote, baseline, p);
  }

  /** The two sides may be exchanged: the same paths are refused, and the merge is the same. */
  lemma MergeIsSymmetric(local: Manifest, remote: Manifest, baseline: Manifest)
    ensures forall p :: Refuses(local, remote, baseline, p) <==> Refuses(remote, local, baseline, p)
    ensures Mergeable(local, remote, baseline) ==> Merged(local, remote, baseline) == Merged(remote, local, baseline)
  {
    if Mergeable(local, remote, baseline) {
      var m, m' := Merged(local, remote, baseline), Merged(remote, local, baseline);
      forall p | true ensures Get(m, p) == Get(m', p) {
        MergedAt(local, remote, baseline, p);
        MergedAt(remote, local, baseline, p);
        if p !in Paths(local, remote, baseline) {
          assert Get(local, p) == Get(remote, p) == Get(baseline, p) == None;
        }
      }
      SameManifest(m, m');
    }
  }

  lemma SameManifest(a: Manifest, b: Manifest)
    requires forall p :: Get(a, p) == Get(b, p)
    ensures a == b
  {
    forall p | true ensures p in a <==> p in b {
      assert Get(a, p) == Get(b, p);
    }
    forall p | p in a ensures a[p] == b[p] {
      assert Get(a, p).value == a[p];
    }
  }

  // ---- Applying the changes

  datatype Trees = Trees(local: Manifest, remote: Manifest)

  function Applied(t: Trees, c: Change): Trees {
    if c.toRemote then t.(remote := Put(t.remote, c.path, c.replacement))
    else t.(local := Put(t.local, c.path, c.replacement))
  }

  /** Applies the selected changes, in order. */
  function ApplySome(t: Trees, changes: seq<Change>, pick: set<string>): Trees
    decreases |changes|
  {
    if changes == [] then t
    else ApplySome(if changes[0].path in pick then Applied(t, changes[0]) else t, changes[1..], pick)
  }

  lemma {:induction false} ApplySomeAt(t: Trees, changes: seq<Change>, pick: set<string>, merged: Manifest, p: string)
    requires Ordered(changes) && forall c :: c in changes ==> Brings(t.local, t.remote, merged, c)
    ensures var t' := ApplySome(t, changes, pick);
      if p in pick && exists c :: c in changes && c.path == p
      then Get(t'.local, p) == Get(t'.remote, p) == Get(merged, p)
      else Get(t'.local, p) == Get(t.local, p) && Get(t'.remote, p) == Get(t.remote, p)
    decreases |changes|
  {
    if changes != [] {
      var c, rest := changes[0], changes[1..];
      assert c in changes;
      var u := if c.path in pick then Applied(t, c) else t;
      forall d | d in rest ensures d in changes && d.path != c.path {
        var i :| 0 <= i < |rest| && rest[i] == d;
        assert changes[i + 1] == d && Less(c.path, d.path);
        LessIrreflexive(c.path);
      }
      StepLeaves(t, c, u, rest, merged, changes);
      ApplySomeAt(u, rest, pick, merged, p);
      assert forall d :: d in changes <==> d == c || d in rest;
    }
  }

  lemma StepLeaves(t: Trees, c: Change, u: Trees, rest: seq<Change>, merged: Manifest, changes: seq<Change>)
    requires u == t || u == Applied(t, c)
    requires forall d :: d in rest ==> d in changes && d.path != c.path
    requires forall d :: d in changes ==> Brings(t.local, t.remote, merged, d)
    ensures forall d :: d in rest ==> Brings(u.local, u.remote, merged, d)
  {
  }

  /** Applying every change makes both trees equal to the merge. */
  lemma ApplyingAllMerges(t: Trees, baseline: Manifest, changes: seq<Change>)
    requires Mergeable(t.local, t.remote, baseline) && Ordered(changes)
    requires var merged := Merged(t.local, t.remote, baseline);
      && (forall c :: c in changes ==> Brings(t.local, t.remote, merged, c))
      && (forall p :: Get(t.local, p) != Get(t.remote, p) ==> exists c :: c in changes && c.path == p)
    ensures var merged := Merged(t.local, t.remote, baseline);
      ApplySome(t, changes, set c | c in changes :: c.path) == Trees(merged, merged)
  {
    var merged := Merged(t.local, t.remote, baseline);
    var pick := set c | c in changes :: c.path;
    var t' := ApplySome(t, changes, pick);
    forall p | true ensures Get(t'.local, p) == Get(t'.remote, p) == Get(merged, p) {
      ApplySomeAt(t, changes, pick, merged, p);
      OneSidedEditsKept(t.local, t.remote, baseline, p);
    }
    SameManifest(t'.local, merged);
    SameManifest(t'.remote, merged);
  }

  lemma PathsOf(local: Manifest, remote: Manifest, baseline: Manifest, p: string)
    ensures p in Paths(local, remote, baseline) <==>
      Get(local, p).Some? || Get(remote, p).Some? || Get(baseline, p).Some?
  {
  }

  /** A sync that stopped after any subset of its changes can be planned again, and reaches the same
      merge. */
  lemma ReplanReachesSameMerge(t: Trees, baseline: Manifest, changes: seq<Change>, pick: set<string>)
    requires Mergeable(t.local, t.remote, baseline) && Ordered(changes)
    requires forall c :: c in changes ==> Brings(t.local, t.remote, Merged(t.local, t.remote, baseline), c)
    ensures var t' := ApplySome(t, changes, pick);
      && Mergeable(t'.local, t'.remote, baseline)
      && Merged(t'.local, t'.remote, baseline) == Merged(t.local, t.remote, baseline)
  {
    var merged := Merged(t.local, t.remote, baseline);
    var t' := ApplySome(t, changes, pick);
    forall p | true
      ensures p in Paths(t'.local, t'.remote, baseline) ==> !Refuses(t'.local, t'.remote, baseline, p)
      ensures Get(Merged(t'.local, t'.remote, baseline), p) == Get(merged, p)
    {
      ApplySomeAt(t, changes, pick, merged, p);
      MergedAt(t.local, t.remote, baseline, p);
      MergedAt(t'.local, t'.remote, baseline, p);
      PathsOf(t.local, t.remote, baseline, p);
      PathsOf(t'.local, t'.remote, baseline, p);
    }
    SameManifest(Merged(t'.local, t'.remote, baseline), merged);
  }

  // ---- The baseline both sides remember

  function CommonBaseline(a: Manifest, b: Manifest, local: Manifest, remote: Manifest): Option<Manifest> {
    if a == b then Some(a) else if local == remote then Some(local) else None
  }
}
