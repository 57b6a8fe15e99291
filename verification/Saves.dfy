/** A machine between saves (`Store::update` and `save_encoded`, src/store.rs): the store in memory,
    the state file, and whether a failed save has stopped all further updates. */
module Saves {
  import opened Types
  import opened Advance
  import opened Encoding
  import opened Update
  import opened Edits

  /** A save that reports failure may still have replaced the file. */
  datatype Save = Saved | Failed(replaced: bool)

  datatype Machine = Machine(mem: Store, disk: Store, poisoned: bool)

  function AfterSave(m: Machine, t: Store, save: Save): Machine {
    match save
    case Saved => Machine(t, t, false)
    case Failed(replaced) => Machine(m.mem, if replaced then t else m.disk, true)
  }

  /** `Store::update` as a whole: a refused edit, publication or charge changes nothing at all. */
  ghost function UpdateWith(w: Widths, m: Machine, edited: Result<Store>, save: Save): (Machine, Result<()>) {
    if m.poisoned then (m, Err(Io)) else
    if edited.Err? then (m, Err(edited.error)) else
    var c := Commit(w, edited.value, m.mem);
    if c.Err? then (m, Err(c.error)) else
    (AfterSave(m, c.value, save), if save.Saved? then Ok(()) else Err(Io))
  }

  datatype Act =
    | Perform(edit: Edit, save: Save)
    | Mark(row: nat, reason: string)
    | Miss(peer: string)  // `sync_peer` failed: only memory forgets that the scan was complete
    | Restart
    | Halt  // `recovery_failed`

  function ProgressOf(s: Store, peer: string): Progress {
    if peer in s.progress then s.progress[peer] else NO_PROGRESS
  }

  function WithoutComplete(s: Store, peer: string): Store {
    s.(progress := s.progress[peer := ProgressOf(s, peer).(complete := false)])
  }

  ghost predicate Acts(w: Widths, m: Machine, act: Act, m': Machine) {
    match act
    case Perform(edit, save) => Fair(m.mem, edit) && m' == UpdateWith(w, m, Apply(m.mem, edit), save).0
    case Mark(row, reason) => Marked(m.mem, row, reason, m'.mem) && m' == m.(mem := m'.mem)
    case Miss(peer) => m' == m.(mem := WithoutComplete(m.mem, peer))
    case Restart => m' == Machine(m.disk, m.disk, false)
    case Halt => m' == m.(poisoned := true)
  }

  /** Memory never runs ahead of the file, and while updates go on it holds the same history; only
      marked rows and missed contacts are not in the file. */
  ghost predicate Steady(m: Machine) {
    && GoodStore(m.mem) && GoodStore(m.disk) && Advances(m.mem, m.disk)
    && (!m.poisoned ==> m.mem == m.disk.(jobs := m.mem.jobs, progress := m.mem.progress))
  }

  lemma SaveKeepsSteady(m: Machine, t: Store, save: Save)
    requires Steady(m) && !m.poisoned && GoodStore(t) && Advances(m.mem, t)
    ensures var m' := AfterSave(m, t, save); Steady(m') && Advances(m.mem, m'.mem) && Advances(m.disk, m'.disk)
  {
    AdvancesReflexive(m.mem);
    AdvancesReflexive(m.disk);
    AdvancesReflexive(t);
  }

  lemma UpdateCommits(w: Widths, m: Machine, edit: Edit, save: Save) returns (t: Store)
    requires Fair(m.mem, edit)
    ensures var r := UpdateWith(w, m, Apply(m.mem, edit), save).0;
      r == m || (!m.poisoned && Committed(w, m.mem, edit, t) && r == AfterSave(m, t, save))
  {
    t := m.mem;
    if !m.poisoned && Apply(m.mem, edit).Ok? && Commit(w, Apply(m.mem, edit).value, m.mem).Ok? {
      t := Commit(w, Apply(m.mem, edit).value, m.mem).value;
    }
  }

  lemma CommittedKeeps(w: Widths, s: Store, edit: Edit, t: Store)
    requires GoodStore(s) && Committed(w, s, edit, t)
    ensures GoodStore(t) && Advances(s, t)
  {
    EveryEditIsGood(s, edit, Apply(s, edit).value);
    CommitKeeps(w, Apply(s, edit).value, s, t);
  }

  lemma PerformKeepsSteady(w: Widths, m: Machine, edit: Edit, save: Save, m': Machine)
    requires Steady(m) && Fair(m.mem, edit) && m' == UpdateWith(w, m, Apply(m.mem, edit), save).0
    ensures Steady(m') && Advances(m.mem, m'.mem) && Advances(m.disk, m'.disk)
  {
    var t := UpdateCommits(w, m, edit, save);
    if m' == m {
      AdvancesReflexive(m.mem);
      AdvancesReflexive(m.disk);
    } else {
      CommittedKeeps(w, m.mem, edit, t);
      SaveKeepsSteady(m, t, save);
    }
  }

  lemma MissKeeps(s: Store, peer: string)
    requires GoodStore(s)
    ensures GoodStore(WithoutComplete(s, peer)) && Advances(s, WithoutComplete(s, peer))
  {
    var t := WithoutComplete(s, peer);
    AdvancesReflexive(s);
    forall i | 0 <= i < |t.jobs| ensures RowCertified(t, t.jobs[i]) && RowClean(t, t.jobs[i]) {
      assert RowCertified(s, s.jobs[i]) && RowClean(s, s.jobs[i]);
    }
  }

  /** What a machine's memory or file showed it never takes back: not by a crash, not by a save with
      an unknown result. */
  lemma ActKeepsSteady(w: Widths, m: Machine, act: Act, m': Machine)
    requires Steady(m) && Acts(w, m, act, m')
    ensures Steady(m') && Advances(m.mem, m'.mem) && Advances(m.disk, m'.disk)
  {
    AdvancesReflexive(m.mem);
    AdvancesReflexive(m.disk);
    match act
    case Perform(edit, save) => PerformKeepsSteady(w, m, edit, save, m');
    case Mark(row, reason) => MarkKeeps(m.mem, row, reason, m'.mem);
    case Miss(peer) => MissKeeps(m.mem, peer);
    case _ =>
  }
}
