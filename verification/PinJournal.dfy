/** The journal with which a pin tree is changed (src/pin.rs): publication, owner review and discard
    as atomic file steps, with other programs writing in between and a crash possible after any. */
module PinJournal {
  import opened Types
  import opened PinPlan
  import opened PinListing

  datatype State = Pending | Retained | Resolved | Discarding

  /** A file is the bytes and mode of a data file, or a receipt. The hash is injective, so a content
      is its own fingerprint. */
  datatype Content = Data(bytes: seq<byte>, mode: nat) | Note(receipt: Receipt)
  datatype Receipt = Receipt(
    path: string, expected: Option<Content>, replacement: Option<Content>, version: string,
    state: State, source: Option<string>, discardToken: Option<Token>)

  /** What the owner saw, and what a token is the hash of. */
  datatype Token =
    | OfReceipt(receipt: Receipt, live: Option<Content>, retained: Option<Content>, id: string)
    | OfArtifact(id: string, content: Content)

  type Files = map<string, Content>

  function At(files: Files, name: string): Option<Content> {
    if name in files then Some(files[name]) else None
  }

  predicate EndsWith(name: string, suffix: string) {
    |name| >= |suffix| && name[|name| - |suffix|..] == suffix
  }

  predicate IsJson(name: string) {
    EndsWith(name, ".json")
  }

  /** `parse_receipt` succeeds. */
  predicate Parses(c: Content) {
    c.Note? &&
    var r := c.receipt;
    && (r.path != "" || !r.state.Discarding? ==> ValidPath(r.path))
    && PinListing.ValidName(r.version)
    && (IsJson(r.version) ==> r.state.Discarding? && r.path == "")
    && (EndsWith(r.version, ".tmp") ==> r.state.Discarding?)
  }

  // ---- check_recovery

  predicate Healthy(rec: Files, name: string)
    requires name in rec
  {
    && Parses(rec[name])
    && (rec[name].receipt.state.Retained? || rec[name].receipt.state.Resolved?)
    && At(rec, rec[name].receipt.version) == rec[name].receipt.expected
  }

  predicate ReferredBy(rec: Files, id: string, name: string) {
    id in rec && IsJson(id) && Parses(rec[id]) && rec[id].receipt.version == name
  }

  /** The walk over the directory comes to its end: it stops at the first name that is not valid. */
  predicate NamesValid(rec: Files) {
    forall n :: n in rec ==> PinListing.ValidName(n)
  }

  predicate CheckOk(rec: Files, ignored: Option<string>) {
    && NamesValid(rec)
    && (forall n :: n in rec && IsJson(n) && Some(n) != ignored ==> Healthy(rec, n))
    && (forall n :: n in rec && !IsJson(n) ==> exists id :: id in rec && ReferredBy(rec, id, n))
  }

  predicate Unsettled(rec: Files, name: string)
    requires name in rec
  {
    if IsJson(name) then !Healthy(rec, name) else !exists id :: id in rec && ReferredBy(rec, id, name)
  }

  /** What the owner must look at before anything syncs again. */
  predicate Problem(rec: Files, name: string)
    requires name in rec
  {
    !PinListing.ValidName(name) || Unsettled(rec, name)
  }

  function Problems(rec: Files): set<string> {
    set n | n in rec && Problem(rec, n)
  }

  lemma ChecksExactlyWithoutProblems(rec: Files)
    ensures CheckOk(rec, None) <==> Problems(rec) == {}
  {
    if Problems(rec) == {} {
      forall n | n in rec ensures !Problem(rec, n) {
        assert n !in Problems(rec);
      }
    }
  }

  // ---- Inspection

  datatype View = View(recorded: bool, receipt: Receipt, live: Option<Content>, retained: Option<Content>, token: Token)

  function InspectArtifact(rec: Files, id: string): Result<View> {
    if !NamesValid(rec) then Err(Protocol)
    else if exists n :: n in rec && n != id && IsJson(n)
                   && (if Parses(rec[n]) then rec[n].receipt.version == id else !IsJson(id)) then Err(Usage)
    else if id !in rec then Err(Usage)
    else Ok(View(false, Receipt("", Some(rec[id]), None, id, Resolved, None, None), None, Some(rec[id]),
                 OfArtifact(id, rec[id])))
  }

  function Inspect(live: Files, rec: Files, id: string): Result<View> {
    if !PinListing.ValidName(id) then Err(Protocol)
    else if !IsJson(id) then InspectArtifact(rec, id)
    else if id !in rec then Err(Usage)
    else if !Parses(rec[id]) then InspectArtifact(rec, id)
    else
      var r := rec[id].receipt;
      var now := if r.path == "" then None else At(live, r.path);
      var retained := At(rec, r.version);
      Ok(View(true, r, now, retained, OfReceipt(r, now, retained, id)))
  }

  // ---- The files, and what other programs may do to them

  /** `own` are files staged here that no other program has opened. */
  datatype Disk = Disk(live: Files, rec: Files, own: set<string>)

  predicate Has(d: Disk, c: Content) {
    (exists p :: p in d.live && d.live[p] == c) || (exists n :: n in d.rec && d.rec[n] == c)
  }

  /** No data of the tree and the recovery directory together is gone. */
  ghost predicate Keeps(a: Disk, b: Disk) {
    forall c: Content :: c.Data? && Has(a, c) ==> Has(b, c)
  }

  /** Every receipt parses and has a version of its own, which is not a receipt. */
  ghost predicate Orderly(rec: Files) {
    && (forall n :: n in rec && IsJson(n) ==> Parses(rec[n]) && !IsJson(rec[n].receipt.version))
    && (forall a, b :: a in rec && b in rec && IsJson(a) && IsJson(b) && a != b ==>
          rec[a].receipt.version != rec[b].receipt.version)
  }

  /** Other programs write and remove live files, and may write to a data file they opened while it
      was live. */
  ghost predicate Disturbed(a: Disk, b: Disk) {
    && b.rec.Keys == a.rec.Keys && b.own == a.own
    && forall n :: n in a.rec ==>
         (a.rec[n].Note? || n in a.own ==> b.rec[n] == a.rec[n]) && (a.rec[n].Data? ==> b.rec[n].Data?)
  }

  lemma JsonStays(a: Disk, b: Disk)
    requires Orderly(a.rec) && Disturbed(a, b)
    ensures forall n :: n in b.rec && IsJson(n) ==> b.rec[n] == a.rec[n]
    ensures Orderly(b.rec)
  {
    forall n | n in b.rec && IsJson(n) ensures b.rec[n] == a.rec[n] {
      assert Parses(a.rec[n]);
    }
  }

  predicate Unreferenced(rec: Files, name: string) {
    forall n :: n in rec && IsJson(n) && rec[n].Note? ==> rec[n].receipt.version != name
  }

  /** A name from `new_id`: nothing in the directory has it or refers to it. */
  predicate FreshName(rec: Files, name: string) {
    name !in rec && !IsJson(name) && Unreferenced(rec, name) && PinListing.ValidName(name)
  }

  predicate FreshJournal(rec: Files, journal: string) {
    journal !in rec && IsJson(journal) && PinListing.ValidName(journal)
  }

  datatype Ids = Ids(version: string, receipt: string, tmp1: string, tmp2: string)

  predicate FreshIds(rec: Files, ids: Ids) {
    && FreshName(rec, ids.version) && FreshName(rec, ids.tmp1) && FreshName(rec, ids.tmp2)
    && PinListing.ValidName(ids.receipt) && !EndsWith(ids.version, ".tmp")
    && ids.version != ids.tmp1 && ids.version != ids.tmp2 && ids.tmp1 != ids.tmp2
    && ids.receipt !in rec && IsJson(ids.receipt)
  }

  lemma PendingBlocks(rec: Files, name: string)
    requires name in rec && IsJson(name) && rec[name].Note? && rec[name].receipt.state.Pending?
    ensures !CheckOk(rec, None)
  {
    assert !Healthy(rec, name);
  }

  lemma StrayBlocks(rec: Files, name: string)
    requires name in rec && !IsJson(name) && Unreferenced(rec, name)
    ensures !CheckOk(rec, None)
  {
    assert !exists id :: id in rec && ReferredBy(rec, id, name);
  }

  // ---- Single steps

  function Create(d: Disk, name: string, c: Content): Disk {
    d.(rec := d.rec[name := c], own := d.own + {name})
  }

  /** Renames a finished receipt over its place. */
  function Place(d: Disk, tmp: string, name: string, r: Receipt): Disk {
    d.(rec := (d.rec - {tmp})[name := Note(r)], own := d.own - {tmp})
  }

  function Exchange(d: Disk, path: string, version: string): Option<Disk> {
    if path in d.live && version in d.rec then
      Some(Disk(d.live[path := d.rec[version]], d.rec[version := d.live[path]], d.own - {version}))
    else None
  }

  function MoveIn(d: Disk, version: string, path: string): Option<Disk> {
    if path !in d.live && version in d.rec then
      Some(Disk(d.live[path := d.rec[version]], d.rec - {version}, d.own - {version}))
    else None
  }

  function MoveOut(d: Disk, path: string, version: string): Option<Disk> {
    if path in d.live && version !in d.rec then
      Some(Disk(d.live - {path}, d.rec[version := d.live[path]], d.own))
    else None
  }

  function Unlink(d: Disk, name: string): Disk {
    d.(rec := d.rec - {name}, own := d.own - {name})
  }

  lemma CreateKeeps(d: Disk, name: string, c: Content)
    requires Orderly(d.rec) && name !in d.rec && !IsJson(name)
    ensures Orderly(Create(d, name, c).rec) && Keeps(d, Create(d, name, c))
  {
    var d' := Create(d, name, c);
    forall x: Content | x.Data? && Has(d, x) ensures Has(d', x) {
      if p :| p in d.live && d.live[p] == x {
        assert d'.live[p] == x;
      } else {
        var n :| n in d.rec && d.rec[n] == x;
        assert d'.rec[n] == x;
      }
    }
  }

  predicate OwnVersion(rec: Files, name: string, r: Receipt) {
    forall n :: n in rec && IsJson(n) && n != name && rec[n].Note? ==> rec[n].receipt.version != r.version
  }

  lemma PlaceKeeps(d: Disk, tmp: string, name: string, r: Receipt)
    requires Orderly(d.rec) && tmp in d.rec && d.rec[tmp] == Note(r) && !IsJson(tmp) && IsJson(name)
    requires Parses(Note(r)) && !IsJson(r.version) && OwnVersion(d.rec, name, r)
    ensures Orderly(Place(d, tmp, name, r).rec) && Keeps(d, Place(d, tmp, name, r))
  {
    var d' := Place(d, tmp, name, r);
    assert forall n :: n in d.rec && IsJson(n) ==> d.rec[n].Note? by {
      forall n | n in d.rec && IsJson(n) ensures d.rec[n].Note? {
        assert Parses(d.rec[n]);
      }
    }
    forall x: Content | x.Data? && Has(d, x) ensures Has(d', x) {
      if p :| p in d.live && d.live[p] == x {
        assert d'.live[p] == x;
      } else {
        var n :| n in d.rec && d.rec[n] == x;
        assert d'.rec[n] == x;
      }
    }
  }

  lemma ExchangeKeeps(d: Disk, path: string, version: string)
    requires Orderly(d.rec) && path in d.live && version in d.rec && !IsJson(version)
    ensures var d' := Exchange(d, path, version).value; Orderly(d'.rec) && Keeps(d, d')
  {
    var d' := Exchange(d, path, version).value;
    forall x: Content | x.Data? && Has(d, x) ensures Has(d', x) {
      if p :| p in d.live && d.live[p] == x {
        assert if p == path then d'.rec[version] == x else d'.live[p] == x;
      } else {
        var n :| n in d.rec && d.rec[n] == x;
        assert if n == version then d'.live[path] == x else d'.rec[n] == x;
      }
    }
  }

  lemma MoveInKeeps(d: Disk, version: string, path: string)
    requires Orderly(d.rec) && path !in d.live && version in d.rec && !IsJson(version)
    ensures var d' := MoveIn(d, version, path).value; Orderly(d'.rec) && Keeps(d, d')
  {
    var d' := MoveIn(d, version, path).value;
    forall x: Content | x.Data? && Has(d, x) ensures Has(d', x) {
      if p :| p in d.live && d.live[p] == x {
        assert d'.live[p] == x;
      } else {
        var n :| n in d.rec && d.rec[n] == x;
        assert if n == version then d'.live[path] == x else d'.rec[n] == x;
      }
    }
  }

  lemma MoveOutKeeps(d: Disk, path: string, version: string)
    requires Orderly(d.rec) && path in d.live && version !in d.rec && !IsJson(version)
    ensures var d' := MoveOut(d, path, version).value; Orderly(d'.rec) && Keeps(d, d')
  {
    var d' := MoveOut(d, path, version).value;
    forall x: Content | x.Data? && Has(d, x) ensures Has(d', x) {
      if p :| p in d.live && d.live[p] == x {
        assert if p == path then d'.rec[version] == x else d'.live[p] == x;
      } else {
        var n :| n in d.rec && d.rec[n] == x;
        assert d'.rec[n] == x;
      }
    }
  }

  lemma UnlinkNoteKeeps(d: Disk, name: string)
    requires Orderly(d.rec) && name in d.rec && d.rec[name].Note?
    ensures Orderly(Unlink(d, name).rec) && Keeps(d, Unlink(d, name))
  {
    var d' := Unlink(d, name);
    forall x: Content | x.Data? && Has(d, x) ensures Has(d', x) {
      if p :| p in d.live && d.live[p] == x {
        assert d'.live[p] == x;
      } else {
        var n :| n in d.rec && d.rec[n] == x;
        assert d'.rec[n] == x;
      }
    }
  }

  // ---- Operations in progress

  datatype Edit = Edit(path: string, expected: Option<Content>, replacement: Option<Content>)

  datatype PublishStage = WriteTmp | PlacePending | StageNew | Swap | Verify | WriteDone | PlaceDone | RemoveDone
  datatype ReviewStage = Recheck | WriteResolved(resolved: Receipt) | PlaceResolved(resolved: Receipt)
  datatype DropStage = WriteIntent | PlaceIntent | DeleteVersion | RemoveIntent

  /** An owner's decision about one receipt. */
  datatype Review = Review(id: string, view: View, restore: bool, tmp: string)

  datatype Task =
    | Idle
    | Publishing(e: Edit, current: Option<Content>, ids: Ids, note: Receipt, at: PublishStage, after: Option<Review>)
    | Restoring(review: Review, ids: Ids, granted: bool, room: bool)
    | Reviewing(review: Review, step: ReviewStage)
    | Dropping(view: View, intent: Receipt, journal: string, tmp: string, drop: DropStage)

  datatype Sys = Sys(disk: Disk, task: Task)

  /** What `apply_locked` finds before it writes anything. */
  datatype Admitted = Nothing | Wanted(current: Option<Content>) | TurnedDown

  function Admit(d: Disk, e: Edit, data: Option<seq<byte>>, ignored: Option<string>, granted: bool,
                 room: bool): Admitted {
    if !CheckOk(d.rec, ignored) then TurnedDown
    else if e.replacement.Some?
            && (data.None? || e.replacement.value.Note? || e.replacement.value.mode > 0x1FF
                || Data(data.value, e.replacement.value.mode) != e.replacement.value) then TurnedDown
    else if !ValidPath(e.path) then TurnedDown
    else
      var current := At(d.live, e.path);
      if current == e.replacement then Nothing
      else if current != e.expected || granted || !room then TurnedDown
      else Wanted(current)
  }

  function Journal(e: Edit, ids: Ids, ignored: Option<string>): Receipt {
    Receipt(e.path, e.expected, e.replacement, ids.version, Pending, ignored, None)
  }

  function StartPublish(s: Sys, e: Edit, data: Option<seq<byte>>, granted: bool, room: bool, ids: Ids): Task {
    match Admit(s.disk, e, data, None, granted, room)
    case Wanted(current) => Publishing(e, current, ids, Journal(e, ids, None), WriteTmp, None)
    case _ => Idle
  }

  function StartReview(s: Sys, id: string, token: Token, restore: bool, granted: bool, room: bool, ids: Ids,
                       tmp: string): Task {
    var i := Inspect(s.disk.live, s.disk.rec, id);
    if i.Err? || i.value.token != token || !i.value.recorded || i.value.receipt.state.Discarding? then Idle
    else if restore && i.value.retained.None? then Idle
    else
      var review := Review(id, i.value, restore, tmp);
      if restore then Restoring(review, ids, granted, room) else Reviewing(review, Recheck)
  }

  predicate Resumes(v: View, token: Token) {
    v.receipt.state.Discarding? && v.receipt.discardToken == Some(token)
  }

  predicate MayDiscard(v: View, token: Token) {
    && (v.token == token || Resumes(v, token)) && !v.receipt.state.Pending?
    && (Resumes(v, token) && v.retained.Some? ==> v.retained == v.receipt.expected)
  }

  function Intent(v: View, token: Token): Receipt {
    v.receipt.(state := Discarding, expected := v.retained, discardToken := Some(token))
  }

  function StartDiscard(s: Sys, id: string, token: Token, journal: string, tmp: string): Task {
    var i := Inspect(s.disk.live, s.disk.rec, id);
    if i.Err? || !MayDiscard(i.value, token) then Idle
    else Dropping(i.value, Intent(i.value, token), if i.value.recorded then id else journal, tmp, WriteIntent)
  }

  function Swapped(d: Disk, e: Edit, current: Option<Content>, version: string): Option<Disk> {
    if e.replacement.None? then MoveOut(d, e.path, version)
    else if current.Some? then Exchange(d, e.path, version)
    else MoveIn(d, version, e.path)
  }

  function DoneState(e: Edit): State {
    if e.expected.Some? then Retained else Resolved
  }

  function AfterPublish(review: Option<Review>): Task {
    if review.Some? then Reviewing(review.value, Recheck) else Idle
  }

  /** The next step of `apply_locked`; a step that fails leaves the files and ends the operation. */
  function PublishNext(d: Disk, t: Task): Sys
    requires t.Publishing?
  {
    match t.at
    case WriteTmp => Sys(Create(d, t.ids.tmp1, Note(t.note)), t.(at := PlacePending))
    case PlacePending =>
      Sys(Place(d, t.ids.tmp1, t.ids.receipt, t.note), t.(at := if t.e.replacement.Some? then StageNew else Swap))
    case StageNew =>
      if t.e.replacement.Some? then Sys(Create(d, t.ids.version, t.e.replacement.value), t.(at := Swap))
      else Sys(d, Idle)
    case Swap =>
      var swapped := Swapped(d, t.e, t.current, t.ids.version);
      if swapped.Some? then Sys(swapped.value, t.(at := Verify)) else Sys(d, Idle)
    case Verify =>
      if t.e.expected.Some? && At(d.rec, t.ids.version) != t.e.expected then Sys(d, Idle)
      else Sys(d, t.(at := WriteDone))
    case WriteDone => Sys(Create(d, t.ids.tmp2, Note(t.note.(state := DoneState(t.e)))), t.(at := PlaceDone))
    case PlaceDone =>
      Sys(Place(d, t.ids.tmp2, t.ids.receipt, t.note.(state := DoneState(t.e))),
          if t.e.expected.Some? then AfterPublish(t.after) else t.(at := RemoveDone))
    case RemoveDone => Sys(Unlink(d, t.ids.receipt), AfterPublish(t.after))
  }

  /** A restore looks again before it publishes, and keeps its own receipt out of the check. */
  function RestoreNext(d: Disk, t: Task): Sys
    requires t.Restoring?
  {
    var v := t.review.view;
    var i := Inspect(d.live, d.rec, t.review.id);
    if i.Err? || i.value.token != v.token || v.retained.None? || v.retained.value.Note? then Sys(d, Idle) else
    var e := Edit(v.receipt.path, v.live, v.retained);
    match Admit(d, e, Some(v.retained.value.bytes), Some(t.review.id), t.granted, t.room)
    case TurnedDown => Sys(d, Idle)
    case Nothing => Sys(d, Reviewing(t.review, Recheck))
    case Wanted(current) =>
      Sys(d, Publishing(e, current, t.ids, Journal(e, t.ids, Some(t.review.id)), WriteTmp, Some(t.review)))
  }

  function ReviewNext(d: Disk, t: Task): Sys
    requires t.Reviewing?
  {
    var v := t.review.view;
    match t.step
    case Recheck =>
      var i := Inspect(d.live, d.rec, t.review.id);
      if i.Err? || i.value.receipt != v.receipt || i.value.retained != v.retained
         || (!t.review.restore && i.value.live != v.live) then Sys(d, Idle)
      else Sys(d, t.(step := WriteResolved(
             v.receipt.(expected := i.value.retained, replacement := i.value.live, state := Resolved))))
    case WriteResolved(r) => Sys(Create(d, t.review.tmp, Note(r)), t.(step := PlaceResolved(r)))
    case PlaceResolved(r) => Sys(Place(d, t.review.tmp, t.review.id, r), Idle)
  }

  function DropNext(d: Disk, t: Task): Sys
    requires t.Dropping?
  {
    match t.drop
    case WriteIntent => Sys(Create(d, t.tmp, Note(t.intent)), t.(drop := PlaceIntent))
    case PlaceIntent => Sys(Place(d, t.tmp, t.journal, t.intent), t.(drop := DeleteVersion))
    case DeleteVersion =>
      if At(d.rec, t.intent.version) != t.view.retained then Sys(d, Idle)
      else Sys(Unlink(d, t.intent.version), t.(drop := RemoveIntent))
    case RemoveIntent => Sys(Unlink(d, t.journal), Idle)
  }

  function Next(s: Sys): Sys {
    match s.task
    case Idle => s
    case Publishing(_, _, _, _, _, _) => PublishNext(s.disk, s.task)
    case Restoring(_, _, _, _) => RestoreNext(s.disk, s.task)
    case Reviewing(_, _) => ReviewNext(s.disk, s.task)
    case Dropping(_, _, _, _, _) => DropNext(s.disk, s.task)
  }

  // ---- What holds between steps

  predicate Holds(rec: Files, name: string, r: Receipt) {
    name in rec && rec[name] == Note(r)
  }

  ghost predicate PublishOk(d: Disk, t: Task)
    requires t.Publishing?
  {
    && (t.e.replacement.Some? ==> t.e.replacement.value.Data?)
    && Parses(Note(t.note)) && t.note.state.Pending? && t.note.version == t.ids.version
    && IdsOk(t.ids)
    && (t.after.Some? ==> ReviewOk(t.after.value) && FreshName(d.rec, t.after.value.tmp)
                          && t.after.value.tmp !in {t.ids.version, t.ids.tmp1, t.ids.tmp2})
    && match t.at
       case WriteTmp => FreshIds(d.rec, t.ids)
       case PlacePending =>
         && Holds(d.rec, t.ids.tmp1, t.note) && Unreferenced(d.rec, t.ids.tmp1)
         && t.ids.receipt !in d.rec && FreshName(d.rec, t.ids.version) && FreshName(d.rec, t.ids.tmp2)
       case StageNew =>
         Holds(d.rec, t.ids.receipt, t.note) && t.ids.version !in d.rec && FreshName(d.rec, t.ids.tmp2)
       case Swap =>
         && Holds(d.rec, t.ids.receipt, t.note) && FreshName(d.rec, t.ids.tmp2)
         && (if t.e.replacement.Some? then
               t.ids.version in d.own && t.ids.version in d.rec && d.rec[t.ids.version] == t.e.replacement.value
             else t.ids.version !in d.rec)
       case Verify => Holds(d.rec, t.ids.receipt, t.note) && FreshName(d.rec, t.ids.tmp2)
       case WriteDone => Holds(d.rec, t.ids.receipt, t.note) && FreshName(d.rec, t.ids.tmp2)
       case PlaceDone =>
         Holds(d.rec, t.ids.receipt, t.note) && Holds(d.rec, t.ids.tmp2, t.note.(state := DoneState(t.e)))
       case RemoveDone => Holds(d.rec, t.ids.receipt, t.note.(state := DoneState(t.e)))
  }

  predicate IdsOk(ids: Ids) {
    && !IsJson(ids.version) && !IsJson(ids.tmp1) && !IsJson(ids.tmp2) && IsJson(ids.receipt)
    && ids.version != ids.tmp1 && ids.version != ids.tmp2 && ids.tmp1 != ids.tmp2
  }

  predicate ReviewOk(r: Review) {
    && IsJson(r.id) && r.view.recorded && Parses(Note(r.view.receipt)) && !r.view.receipt.state.Discarding?
    && !IsJson(r.view.receipt.version) && !IsJson(r.tmp)
  }

  predicate Resolution(v: View, r: Receipt) {
    r == v.receipt.(expected := r.expected, replacement := r.replacement, state := Resolved)
  }

  ghost predicate ReviewStepOk(d: Disk, t: Task)
    requires t.Reviewing?
  {
    && ReviewOk(t.review)
    && match t.step
       case Recheck => FreshName(d.rec, t.review.tmp)
       case WriteResolved(r) =>
         FreshName(d.rec, t.review.tmp) && Holds(d.rec, t.review.id, t.review.view.receipt)
             && Resolution(t.review.view, r)
       case PlaceResolved(r) =>
         && Holds(d.rec, t.review.tmp, r) && Holds(d.rec, t.review.id, t.review.view.receipt)
             && Resolution(t.review.view, r)
  }

  ghost predicate DropOk(d: Disk, t: Task)
    requires t.Dropping?
  {
    && Parses(Note(t.intent)) && !IsJson(t.intent.version) && t.intent.state.Discarding?
    && !IsJson(t.tmp) && IsJson(t.journal) && PinListing.ValidName(t.journal) && t.tmp != t.intent.version
    && match t.drop
       case WriteIntent => FreshName(d.rec, t.tmp) && OwnVersion(d.rec, t.journal, t.intent)
       case PlaceIntent => Holds(d.rec, t.tmp, t.intent) && OwnVersion(d.rec, t.journal, t.intent)
       case DeleteVersion => Holds(d.rec, t.journal, t.intent)
       case RemoveIntent => Holds(d.rec, t.journal, t.intent)
  }

  ghost predicate TaskOk(d: Disk, t: Task) {
    match t
    case Idle => true
    case Publishing(_, _, _, _, _, _) => PublishOk(d, t)
    case Restoring(review, ids, _, _) =>
      && ReviewOk(review) && FreshIds(d.rec, ids) && FreshName(d.rec, review.tmp)
      && review.tmp !in {ids.version, ids.tmp1, ids.tmp2}
    case Reviewing(_, _) => ReviewStepOk(d, t)
    case Dropping(_, _, _, _, _) => DropOk(d, t)
  }

  ghost predicate SysOk(s: Sys) {
    Orderly(s.disk.rec) && TaskOk(s.disk, s.task)
  }

  // ---- Other programs

  lemma NamesStay(a: Disk, b: Disk)
    requires Orderly(a.rec) && Disturbed(a, b)
    ensures forall n :: FreshName(a.rec, n) ==> FreshName(b.rec, n)
    ensures forall n :: Unreferenced(a.rec, n) ==> Unreferenced(b.rec, n)
    ensures forall n, r :: Holds(a.rec, n, r) ==> Holds(b.rec, n, r)
    ensures forall n, r :: OwnVersion(a.rec, n, r) ==> OwnVersion(b.rec, n, r)
  {
    JsonStays(a, b);
  }

  lemma OutsideKeeps(s: Sys, d: Disk)
    requires SysOk(s) && Disturbed(s.disk, d)
    ensures SysOk(s.(disk := d))
  {
    JsonStays(s.disk, d);
    NamesStay(s.disk, d);
    match s.task
    case Publishing(_, _, _, _, _, _) => assert PublishOk(d, s.task);
    case Reviewing(_, _) => assert ReviewStepOk(d, s.task);
    case Dropping(_, _, _, _, _) => assert DropOk(d, s.task);
    case _ =>
  }

  // ---- This program's steps

  /** A new file that is not a receipt disturbs no name but its own. */
  lemma CreateLeaves(d: Disk, name: string, c: Content)
    requires name !in d.rec && !IsJson(name)
    ensures var d' := Create(d, name, c);
      && (forall n :: n != name && FreshName(d.rec, n) ==> FreshName(d'.rec, n))
      && (forall n :: Unreferenced(d.rec, n) ==> Unreferenced(d'.rec, n))
      && (forall n, r :: Holds(d.rec, n, r) ==> Holds(d'.rec, n, r))
      && (forall n, r :: OwnVersion(d.rec, n, r) ==> OwnVersion(d'.rec, n, r))
  {
  }

  /** Placing a receipt takes its temporary name away and refers to one version. */
  lemma PlaceLeaves(d: Disk, tmp: string, name: string, r: Receipt)
    requires Orderly(d.rec) && Holds(d.rec, tmp, r) && !IsJson(tmp) && IsJson(name)
    ensures var d' := Place(d, tmp, name, r);
      && Holds(d'.rec, name, r)
      && (forall n :: n != r.version && FreshName(d.rec, n) ==> FreshName(d'.rec, n))
      && (forall n, q :: n != tmp && n != name && Holds(d.rec, n, q) ==> Holds(d'.rec, n, q))
  {
    var d' := Place(d, tmp, name, r);
    forall n | n != r.version && FreshName(d.rec, n) ensures FreshName(d'.rec, n) {
      assert n != tmp && n != name;
    }
  }

  /** A change of data files only. */
  lemma DataLeaves(d: Disk, d': Disk, version: string)
    requires !IsJson(version) && d'.rec.Keys - {version} == d.rec.Keys - {version}
    requires forall n :: n in d.rec && n != version && n in d'.rec ==> d'.rec[n] == d.rec[n]
    ensures forall n :: n != version && FreshName(d.rec, n) ==> FreshName(d'.rec, n)
    ensures forall n, r :: n != version && Holds(d.rec, n, r) ==> Holds(d'.rec, n, r)
  {
    forall n | n != version && n in d'.rec ensures n in d.rec {
      assert n in d'.rec.Keys - {version};
    }
    forall n | n != version && n in d.rec ensures n in d'.rec {
      assert n in d.rec.Keys - {version};
    }
  }

  lemma SwapLeaves(d: Disk, e: Edit, current: Option<Content>, version: string)
    requires Orderly(d.rec) && !IsJson(version) && Swapped(d, e, current, version).Some?
    ensures var d' := Swapped(d, e, current, version).value;
      && Orderly(d'.rec) && Keeps(d, d')
      && (forall n :: n != version && FreshName(d.rec, n) ==> FreshName(d'.rec, n))
      && (forall n, r :: n != version && Holds(d.rec, n, r) ==> Holds(d'.rec, n, r))
  {
    var d' := Swapped(d, e, current, version).value;
    if e.replacement.None? {
      MoveOutKeeps(d, e.path, version);
    } else if current.Some? {
      ExchangeKeeps(d, e.path, version);
    } else {
      MoveInKeeps(d, version, e.path);
    }
    DataLeaves(d, d', version);
  }

  /** The step that publishes: the path shows the wanted content, and what it showed just before, even
      if another program wrote that meanwhile, is the version kept in the recovery directory. */
  lemma SwapPublishes(s: Sys)
    requires SysOk(s) && s.task.Publishing? && s.task.at == Swap && Next(s).task != Idle
    ensures var e, version := s.task.e, s.task.ids.version;
      && At(Next(s).disk.live, e.path) == e.replacement
      && At(Next(s).disk.rec, version) == At(s.disk.live, e.path)
  {
    assert PublishOk(s.disk, s.task);
  }

  /** After the exchange a publication goes on exactly if what it replaced is what it was to replace. */
  lemma GoesOnOverExpectedOnly(d: Disk, t: Task)
    requires t.Publishing? && t.at == Verify
    ensures PublishNext(d, t).disk == d
    ensures PublishNext(d, t).task != Idle <==>
      (t.e.expected.Some? ==> t.ids.version in d.rec && Some(d.rec[t.ids.version]) == t.e.expected)
  {
  }

  ghost predicate StepOk(s: Sys, s': Sys) {
    SysOk(s') && Keeps(s.disk, s'.disk)
  }

  lemma FreshReceiptVersion(d: Disk, name: string, r: Receipt)
    requires Unreferenced(d.rec, r.version)
    ensures OwnVersion(d.rec, name, r)
  {
  }

  lemma HeldVersion(d: Disk, name: string, r: Receipt, q: Receipt)
    requires Orderly(d.rec) && IsJson(name) && Holds(d.rec, name, r) && q.version == r.version
    ensures OwnVersion(d.rec, name, q)
  {
  }

  lemma PublishWriteTmp(s: Sys)
    requires SysOk(s) && s.task.Publishing? && s.task.at == WriteTmp
    ensures StepOk(s, Next(s))
  {
    assert PublishOk(s.disk, s.task);
    CreateKeeps(s.disk, s.task.ids.tmp1, Note(s.task.note));
    CreateLeaves(s.disk, s.task.ids.tmp1, Note(s.task.note));
    assert PublishOk(Next(s).disk, Next(s).task);
  }

  lemma PublishPlacePending(s: Sys)
    requires SysOk(s) && s.task.Publishing? && s.task.at == PlacePending
    ensures StepOk(s, Next(s))
  {
    var t := s.task;
    assert PublishOk(s.disk, t);
    FreshReceiptVersion(s.disk, t.ids.receipt, t.note);
    PlaceKeeps(s.disk, t.ids.tmp1, t.ids.receipt, t.note);
    PlaceLeaves(s.disk, t.ids.tmp1, t.ids.receipt, t.note);
    assert PublishOk(Next(s).disk, Next(s).task);
  }

  lemma PublishStageNew(s: Sys)
    requires SysOk(s) && s.task.Publishing? && s.task.at == StageNew
    ensures StepOk(s, Next(s))
  {
    var t := s.task;
    assert PublishOk(s.disk, t);
    if t.e.replacement.Some? {
      CreateKeeps(s.disk, t.ids.version, t.e.replacement.value);
      CreateLeaves(s.disk, t.ids.version, t.e.replacement.value);
      assert PublishOk(Next(s).disk, Next(s).task);
    }
  }

  lemma PublishSwap(s: Sys)
    requires SysOk(s) && s.task.Publishing? && s.task.at == Swap
    ensures StepOk(s, Next(s))
  {
    var t := s.task;
    assert PublishOk(s.disk, t);
    if Swapped(s.disk, t.e, t.current, t.ids.version).Some? {
      SwapLeaves(s.disk, t.e, t.current, t.ids.version);
      assert PublishOk(Next(s).disk, Next(s).task);
    }
  }

  lemma PublishWriteDone(s: Sys)
    requires SysOk(s) && s.task.Publishing? && s.task.at == WriteDone
    ensures StepOk(s, Next(s))
  {
    var t := s.task;
    assert PublishOk(s.disk, t);
    CreateKeeps(s.disk, t.ids.tmp2, Note(t.note.(state := DoneState(t.e))));
    CreateLeaves(s.disk, t.ids.tmp2, Note(t.note.(state := DoneState(t.e))));
    assert PublishOk(Next(s).disk, Next(s).task);
  }

  lemma DoneParses(r: Receipt, state: State)
    requires Parses(Note(r)) && r.state.Pending? && state in {Retained, Resolved}
    ensures Parses(Note(r.(state := state)))
  {
  }

  lemma PublishPlaceDone(s: Sys)
    requires SysOk(s) && s.task.Publishing? && s.task.at == PlaceDone
    ensures StepOk(s, Next(s))
  {
    var t := s.task;
    var r := t.note.(state := DoneState(t.e));
    assert PublishOk(s.disk, t);
    DoneParses(t.note, DoneState(t.e));
    HeldVersion(s.disk, t.ids.receipt, t.note, r);
    PlaceKeeps(s.disk, t.ids.tmp2, t.ids.receipt, r);
    PlaceLeaves(s.disk, t.ids.tmp2, t.ids.receipt, r);
    if t.e.expected.None? {
      assert PublishOk(Next(s).disk, Next(s).task);
    } else if t.after.Some? {
      assert ReviewStepOk(Next(s).disk, Next(s).task);
    }
  }

  lemma UnlinkLeaves(d: Disk, name: string)
    ensures forall n :: FreshName(d.rec, n) ==> FreshName(Unlink(d, name).rec, n)
    ensures forall n, r :: n != name && Holds(d.rec, n, r) ==> Holds(Unlink(d, name).rec, n, r)
  {
  }

  lemma PublishRemoveDone(s: Sys)
    requires SysOk(s) && s.task.Publishing? && s.task.at == RemoveDone
    ensures StepOk(s, Next(s))
  {
    var t := s.task;
    assert PublishOk(s.disk, t);
    UnlinkNoteKeeps(s.disk, t.ids.receipt);
    UnlinkLeaves(s.disk, t.ids.receipt);
    if t.after.Some? {
      assert ReviewStepOk(Next(s).disk, Next(s).task);
    }
  }

  lemma SameDisk(s: Sys, s': Sys)
    requires SysOk(s) && s'.disk == s.disk && TaskOk(s.disk, s'.task)
    ensures StepOk(s, s')
  {
  }

  lemma PublishStep(s: Sys)
    requires SysOk(s) && s.task.Publishing?
    ensures StepOk(s, Next(s))
  {
    match s.task.at
    case WriteTmp => PublishWriteTmp(s);
    case PlacePending => PublishPlacePending(s);
    case StageNew => PublishStageNew(s);
    case Swap => PublishSwap(s);
    case Verify =>
      assert PublishOk(s.disk, s.task);
      assert Next(s).task.Publishing? ==> PublishOk(s.disk, Next(s).task);
      SameDisk(s, Next(s));
    case WriteDone => PublishWriteDone(s);
    case PlaceDone => PublishPlaceDone(s);
    case RemoveDone => PublishRemoveDone(s);
  }

  lemma RestoreStep(s: Sys)
    requires SysOk(s) && s.task.Restoring?
    ensures StepOk(s, Next(s))
  {
    var s' := Next(s);
    if s'.task.Publishing? {
      assert PublishOk(s.disk, s'.task);
    } else if s'.task.Reviewing? {
      assert ReviewStepOk(s.disk, s'.task);
    }
    SameDisk(s, s');
  }

  lemma RecheckFinds(live: Files, rec: Files, id: string, v: View)
    requires Inspect(live, rec, id).Ok? && Inspect(live, rec, id).value.receipt == v.receipt
    requires IsJson(id) && Parses(Note(v.receipt)) && !v.receipt.state.Discarding?
    ensures Holds(rec, id, v.receipt)
  {
  }

  lemma ReviewStep(s: Sys)
    requires SysOk(s) && s.task.Reviewing?
    ensures StepOk(s, Next(s))
  {
    var t, s' := s.task, Next(s);
    assert ReviewStepOk(s.disk, t);
    match t.step
    case Recheck =>
      if s'.task.Reviewing? {
        RecheckFinds(s.disk.live, s.disk.rec, t.review.id, t.review.view);
        assert ReviewStepOk(s.disk, s'.task);
      }
      SameDisk(s, s');
    case WriteResolved(r) =>
      CreateKeeps(s.disk, t.review.tmp, Note(r));
      CreateLeaves(s.disk, t.review.tmp, Note(r));
      assert ReviewStepOk(s'.disk, s'.task);
    case PlaceResolved(r) =>
      HeldVersion(s.disk, t.review.id, t.review.view.receipt, r);
      PlaceKeeps(s.disk, t.review.tmp, t.review.id, r);
  }

  /** Dropping the version is the one step that deletes data. */
  predicate Deletes(t: Task) {
    t.Dropping? && t.drop == DeleteVersion
  }

  lemma DropStep(s: Sys)
    requires SysOk(s) && s.task.Dropping?
    ensures SysOk(Next(s)) && (!Deletes(s.task) ==> Keeps(s.disk, Next(s).disk))
  {
    var t, s' := s.task, Next(s);
    assert DropOk(s.disk, t);
    match t.drop
    case WriteIntent =>
      CreateKeeps(s.disk, t.tmp, Note(t.intent));
      CreateLeaves(s.disk, t.tmp, Note(t.intent));
      assert DropOk(s'.disk, s'.task);
    case PlaceIntent =>
      PlaceKeeps(s.disk, t.tmp, t.journal, t.intent);
      PlaceLeaves(s.disk, t.tmp, t.journal, t.intent);
      assert DropOk(s'.disk, s'.task);
    case DeleteVersion =>
      UnlinkLeaves(s.disk, t.intent.version);
      assert s'.task.Dropping? ==> DropOk(s'.disk, s'.task);
    case RemoveIntent =>
      UnlinkNoteKeeps(s.disk, t.journal);
  }

  // ---- Every run

  datatype Action =
    | Publish(e: Edit, data: Option<seq<byte>>, granted: bool, room: bool, ids: Ids)
    | Resolve(id: string, token: Token, restore: bool, granted: bool, room: bool, ids: Ids, tmp: string)
    | Discard(id: string, token: Token, journal: string, tmp: string)
    | Advance
    | Outside(disk: Disk)
    | Crash

  /** One operation at a time, under the recovery lock; IDs are fresh. */
  ghost predicate Acts(s: Sys, a: Action, s': Sys) {
    match a
    case Publish(e, data, granted, room, ids) =>
      s.task.Idle? && FreshIds(s.disk.rec, ids) && s' == s.(task := StartPublish(s, e, data, granted, room, ids))
    case Resolve(id, token, restore, granted, room, ids, tmp) =>
      && s.task.Idle? && FreshIds(s.disk.rec, ids) && FreshName(s.disk.rec, tmp)
          && tmp !in {ids.version, ids.tmp1, ids.tmp2}
      && s' == s.(task := StartReview(s, id, token, restore, granted, room, ids, tmp))
    case Discard(id, token, journal, tmp) =>
      && s.task.Idle? && FreshName(s.disk.rec, tmp) && FreshJournal(s.disk.rec, journal)
      && s' == s.(task := StartDiscard(s, id, token, journal, tmp))
    case Advance => s' == Next(s)
    case Outside(d) => Disturbed(s.disk, d) && s' == s.(disk := d)
    case Crash => s' == Sys(s.disk.(own := {}), Idle)
  }

  /** What an inspection that succeeds is about, in any directory. */
  lemma Inspected(d: Disk, id: string)
    requires Inspect(d.live, d.rec, id).Ok?
    ensures var v := Inspect(d.live, d.rec, id).value;
      && PinListing.ValidName(id) && id in d.rec && v.retained == At(d.rec, v.receipt.version)
      && if v.recorded then IsJson(id) && Holds(d.rec, id, v.receipt) && Parses(Note(v.receipt))
         else v.receipt.version == id && v.receipt.path == "" && v.receipt.state.Resolved?
              && NamesValid(d.rec) && (IsJson(id) ==> !Parses(d.rec[id]))
  {
  }

  lemma InspectedReceipt(d: Disk, id: string)
    requires Orderly(d.rec) && Inspect(d.live, d.rec, id).Ok?
    ensures var v := Inspect(d.live, d.rec, id).value;
      if v.recorded then IsJson(id) && Holds(d.rec, id, v.receipt) && Parses(Note(v.receipt))
          && !IsJson(v.receipt.version)
      else !IsJson(id) && v.receipt.version == id && id in d.rec && Unreferenced(d.rec, id) && v.receipt.path == ""
           && PinListing.ValidName(id) && !v.receipt.state.Pending?
  {
    if !IsJson(id) {
      assert InspectArtifact(d.rec, id).Ok?;
    } else {
      assert id in d.rec ==> Parses(d.rec[id]);
    }
  }

  lemma StartsOk(s: Sys, a: Action, s': Sys)
    requires SysOk(s) && Acts(s, a, s') && (a.Publish? || a.Resolve? || a.Discard?)
    ensures SysOk(s') && s'.disk == s.disk
  {
    match a
    case Publish(_, _, _, _, _) =>
      assert s'.task.Publishing? ==> PublishOk(s.disk, s'.task);
    case Resolve(id, _, _, _, _, _, _) =>
      if !s'.task.Idle? {
        InspectedReceipt(s.disk, id);
        assert s'.task.Reviewing? ==> ReviewStepOk(s.disk, s'.task);
      }
    case Discard(id, token, _, _) =>
      if s'.task.Dropping? {
        InspectedReceipt(s.disk, id);
        DiscardStarts(s, id, token, s'.task);
      }
    case _ =>
  }

  lemma DiscardStarts(s: Sys, id: string, token: Token, t: Task)
    requires SysOk(s) && Inspect(s.disk.live, s.disk.rec, id).Ok? && t.Dropping? && t.drop == WriteIntent
    requires var v := Inspect(s.disk.live, s.disk.rec, id).value;
      && t.view == v && t.intent == Intent(v, token)
      && (if v.recorded then t.journal == id else FreshJournal(s.disk.rec, t.journal))
    requires FreshName(s.disk.rec, t.tmp)
    ensures DropOk(s.disk, t)
  {
    InspectedReceipt(s.disk, id);
    var v := Inspect(s.disk.live, s.disk.rec, id).value;
    if v.recorded {
      HeldVersion(s.disk, id, v.receipt, t.intent);
    }
  }

  lemma ActKeeps(s: Sys, a: Action, s': Sys)
    requires SysOk(s) && Acts(s, a, s')
    ensures SysOk(s')
    ensures !a.Outside? && !(a.Advance? && Deletes(s.task)) ==> Keeps(s.disk, s'.disk)
  {
    match a
    case Advance =>
      match s.task {
        case Idle =>
        case Publishing(_, _, _, _, _, _) => PublishStep(s);
        case Restoring(_, _, _, _) => RestoreStep(s);
        case Reviewing(_, _) => ReviewStep(s);
        case Dropping(_, _, _, _, _) => DropStep(s);
      }
    case Outside(d) => OutsideKeeps(s, d);
    case Crash =>
    case _ => StartsOk(s, a, s');
  }

  lemma EveryActKeeps()
    ensures forall s, a, s' :: SysOk(s) && Acts(s, a, s') ==> SysOk(s')
  {
    forall s, a, s' | SysOk(s) && Acts(s, a, s') ensures SysOk(s') {
      ActKeeps(s, a, s');
    }
  }

  ghost predicate Run(states: seq<Sys>, actions: seq<Action>) {
    && |states| == |actions| + 1 && states[0].task.Idle? && Orderly(states[0].disk.rec)
    && forall i {:trigger actions[i]} :: 0 <= i < |actions| ==> Acts(states[i], actions[i], states[i + 1])
  }

  lemma RunsStayOk(states: seq<Sys>, actions: seq<Action>, i: nat)
    requires Run(states, actions) && i < |states|
    ensures SysOk(states[i])
  {
    EveryActKeeps();
    for n := 0 to i
      invariant SysOk(states[n])
    {
      var a := actions[n];
    }
  }

  /** Whatever other programs write in between and wherever a crash falls, no step of a publication, a
      restore or a review takes any data away from the live tree and the recovery directory together;
      only the owner's discard deletes, and only the version it names. */
  lemma NoContentLost(states: seq<Sys>, actions: seq<Action>, i: nat)
    requires Run(states, actions) && i < |actions| && !actions[i].Outside?
    ensures Keeps(states[i].disk, states[i + 1].disk)
         || (Deletes(states[i].task) && states[i + 1].disk == Unlink(states[i].disk, states[i].task.intent.version))
  {
    RunsStayOk(states, actions, i);
    var a := actions[i];
    ActKeeps(states[i], a, states[i + 1]);
  }

  // ---- What a crash leaves

  /** From its first file to its completed receipt. */
  predicate Unfinished(t: Task) {
    t.Publishing? && t.at != WriteTmp && t.at != RemoveDone
  }

  /** The sign of an unfinished publication: a receipt not yet placed, or a pending one. */
  predicate Marked(rec: Files, ids: Ids) {
    || (ids.tmp1 in rec && !IsJson(ids.tmp1) && rec[ids.tmp1].Note? && Unreferenced(rec, ids.tmp1))
    || (ids.receipt in rec && IsJson(ids.receipt) && rec[ids.receipt].Note? && rec[ids.receipt].receipt.state.Pending?)
  }

  lemma MarkedBlocks(rec: Files, ids: Ids)
    requires Marked(rec, ids)
    ensures !CheckOk(rec, None)
  {
    if ids.receipt in rec && IsJson(ids.receipt) && rec[ids.receipt].Note? && rec[ids.receipt].receipt.state.Pending? {
      PendingBlocks(rec, ids.receipt);
    } else {
      StrayBlocks(rec, ids.tmp1);
    }
  }

  lemma UnfinishedIsMarked(s: Sys)
    requires SysOk(s) && Unfinished(s.task)
    ensures Marked(s.disk.rec, s.task.ids)
  {
    assert PublishOk(s.disk, s.task);
  }

  lemma MarkStays(a: Disk, b: Disk, ids: Ids)
    requires Orderly(a.rec) && Disturbed(a, b) && Marked(a.rec, ids)
    ensures Marked(b.rec, ids)
  {
    JsonStays(a, b);
  }

  /** A crash, other programs, new publications, or an operation that gives up by itself, as a publication does whose
      exchange or verification fails. */
  predicate GoesNoFurther(s: Sys, a: Action, s': Sys) {
    a.Crash? || a.Outside? || a.Publish? || (a.Advance? && s'.task.Idle? && s'.disk == s.disk)
  }

  lemma MarkOutlasts(s: Sys, a: Action, s': Sys, ids: Ids)
    requires Orderly(s.disk.rec) && Marked(s.disk.rec, ids) && Acts(s, a, s') && GoesNoFurther(s, a, s')
    ensures Orderly(s'.disk.rec) && Marked(s'.disk.rec, ids)
  {
    if a.Outside? {
      MarkStays(s.disk, s'.disk, ids);
      JsonStays(s.disk, s'.disk);
    }
  }

  /** A publication that was stopped or gave up anywhere makes the next check fail. Other programs cannot make the
      sign go away, and until the owner acts no new publication starts. */
  lemma InterruptedIsFound(states: seq<Sys>, actions: seq<Action>, i: nat, j: nat)
    requires Run(states, actions) && i <= j < |states| && Unfinished(states[i].task)
    requires forall n {:trigger actions[n]} :: i <= n < j ==> GoesNoFurther(states[n], actions[n], states[n + 1])
    ensures !CheckOk(states[j].disk.rec, None)
    ensures j < |actions| && actions[j].Publish? ==> states[j + 1] == states[j]
  {
    RunsStayOk(states, actions, i);
    UnfinishedIsMarked(states[i]);
    var ids := states[i].task.ids;
    for n := i to j
      invariant Marked(states[n].disk.rec, ids) && Orderly(states[n].disk.rec)
    {
      MarkOutlasts(states[n], actions[n], states[n + 1], ids);
    }
    MarkedBlocks(states[j].disk.rec, ids);
    if j < |actions| {
      assert Acts(states[j], actions[j], states[j + 1]);
    }
  }

  /** A retained file that is no longer what its receipt says makes every check fail. */
  lemma AlteredVersionIsFound(rec: Files, name: string)
    requires name in rec && IsJson(name) && Parses(rec[name])
    requires At(rec, rec[name].receipt.version) != rec[name].receipt.expected
    ensures !CheckOk(rec, None)
  {
    assert !Healthy(rec, name);
  }

  // ---- The owner can always go on

  function Reviewed(d: Disk, id: string): Receipt
    requires id in d.rec && d.rec[id].Note?
  {
    var r := d.rec[id].receipt;
    r.(expected := At(d.rec, r.version), replacement := if r.path == "" then None else At(d.live, r.path),
       state := Resolved)
  }

  /** The next steps with no other program in between. */
  function Steps(s: Sys, n: nat): Sys
    decreases n
  {
    if n == 0 then s else Steps(Next(s), n - 1)
  }

  ghost predicate Ends(s: Sys, n: nat, live: Files, rec: Files) {
    Steps(s, n).task.Idle? && Steps(s, n).disk.live == live && Steps(s, n).disk.rec == rec
  }

  lemma {:induction false} StepsAdd(s: Sys, m: nat, n: nat)
    ensures Steps(s, m + n) == Steps(Steps(s, m), n)
    decreases m
  {
    if m > 0 {
      StepsAdd(Next(s), m - 1, n);
    }
  }

  ghost predicate Reaches(s: Sys, n: nat, live: Files, rec: Files, task: Task) {
    Steps(s, n).task == task && Steps(s, n).disk.live == live && Steps(s, n).disk.rec == rec
  }

  /** The live tree after a publication. */
  function Shown(live: Files, e: Edit): Files {
    if e.replacement.Some? then live[e.path := e.replacement.value] else live - {e.path}
  }

  /** The recovery directory after its exchange, and at its end. */
  function Moved(rec: Files, e: Edit, version: string): Files {
    if e.expected.Some? then rec[version := e.expected.value] else rec
  }

  function Kept(rec: Files, e: Edit, ids: Ids, note: Receipt): Files {
    if e.expected.Some? then Moved(rec, e, ids.version)[ids.receipt := Note(note.(state := Retained))] else rec
  }

  function SwapSteps(e: Edit): nat {
    if e.replacement.Some? then 2 else 1
  }

  function DoneSteps(e: Edit): nat {
    if e.expected.Some? then 3 else 4
  }

  lemma PendingRuns(s: Sys)
    requires s.task.Publishing? && s.task.at == WriteTmp && s.task.ids.tmp1 !in s.disk.rec
    requires s.task.ids.tmp1 != s.task.ids.receipt
    ensures var t := s.task;
      Reaches(s, 2, s.disk.live, s.disk.rec[t.ids.receipt := Note(t.note)],
              t.(at := if t.e.replacement.Some? then StageNew else Swap))
  {
    var t := s.task;
    var s1 := Next(s);
    var s2 := Next(s1);
    assert s2.disk.rec == s.disk.rec[t.ids.receipt := Note(t.note)];
    assert Steps(s, 2) == Steps(s1, 1) == Steps(s2, 0) == s2;
  }

  lemma SwapRuns(s: Sys)
    requires s.task.Publishing? && s.task.at == (if s.task.e.replacement.Some? then StageNew else Swap)
    requires s.task.current == s.task.e.expected == At(s.disk.live, s.task.e.path) != s.task.e.replacement
    requires s.task.ids.version !in s.disk.rec
    ensures var t := s.task;
      Reaches(s, SwapSteps(t.e), Shown(s.disk.live, t.e), Moved(s.disk.rec, t.e, t.ids.version), t.(at := Verify))
  {
    var t := s.task;
    var s1 := if t.e.replacement.Some? then Next(s) else s;
    var s2 := Next(s1);
    assert s2.disk.live == Shown(s.disk.live, t.e);
    assert s2.disk.rec == Moved(s.disk.rec, t.e, t.ids.version);
    assert Steps(s1, 1) == Steps(s2, 0) == s2;
    assert t.e.replacement.Some? ==> Steps(s, 2) == Steps(s1, 1);
  }

  lemma DoneRuns(s: Sys, rec: Files)
    requires s.task.Publishing? && s.task.at == Verify
    requires var t := s.task;
      && s.disk.rec == Moved(rec[t.ids.receipt := Note(t.note)], t.e, t.ids.version)
      && t.ids.version !in rec && t.ids.receipt !in rec && t.ids.tmp2 !in rec && t.ids.version != t.ids.tmp2
      && t.ids.version != t.ids.receipt && t.ids.tmp2 != t.ids.receipt
    ensures var t := s.task;
      Reaches(s, DoneSteps(t.e), s.disk.live, Kept(rec, t.e, t.ids, t.note), AfterPublish(t.after))
  {
    var t := s.task;
    var done := Note(t.note.(state := DoneState(t.e)));
    ReceiptRuns(s, done);
    var s3 := Steps(s, 3);
    if t.e.expected.Some? {
      assert s3.disk.rec == Kept(rec, t.e, t.ids, t.note);
    } else {
      StepsAdd(s, 3, 1);
      RemoveRuns(s3, rec);
    }
  }

  lemma RemoveRuns(s: Sys, rec: Files)
    requires s.task.Publishing? && s.task.at == RemoveDone && s.task.ids.receipt !in rec
    requires s.disk.rec.Keys == rec.Keys + {s.task.ids.receipt}
    requires forall n :: n in rec ==> s.disk.rec[n] == rec[n]
    ensures Reaches(s, 1, s.disk.live, rec, AfterPublish(s.task.after))
  {
    assert Next(s).disk.rec == rec;
    assert Steps(s, 1) == Steps(Next(s), 0) == Next(s);
  }

  lemma ReceiptRuns(s: Sys, done: Content)
    requires s.task.Publishing? && s.task.at == Verify && s.task.ids.tmp2 !in s.disk.rec
    requires s.task.ids.tmp2 != s.task.ids.receipt && done == Note(s.task.note.(state := DoneState(s.task.e)))
    requires s.task.e.expected.Some? ==> At(s.disk.rec, s.task.ids.version) == s.task.e.expected
    ensures var t := s.task;
      Reaches(s, 3, s.disk.live, s.disk.rec[t.ids.receipt := done],
              if t.e.expected.Some? then AfterPublish(t.after) else t.(at := RemoveDone))
  {
    var s1 := Next(s);
    var s2 := Next(s1);
    var s3 := Next(s2);
    assert s3.disk.rec == s.disk.rec[s.task.ids.receipt := done];
    assert Steps(s, 3) == Steps(s1, 2) == Steps(s2, 1) == Steps(s3, 0) == s3;
  }

  /** With no other program in between, a publication shows the wanted content, keeps what it replaced as a
      version with its receipt, and leaves nothing else behind. */
  lemma PublishCompletes(s: Sys)
    requires s.task.Publishing? && s.task.at == WriteTmp && FreshIds(s.disk.rec, s.task.ids)
    requires s.task.current == s.task.e.expected == At(s.disk.live, s.task.e.path) != s.task.e.replacement
    ensures var t := s.task;
      Reaches(s, 2 + SwapSteps(t.e) + DoneSteps(t.e), Shown(s.disk.live, t.e),
              Kept(s.disk.rec, t.e, t.ids, t.note), AfterPublish(t.after))
  {
    var t := s.task;
    PendingRuns(s);
    var s2 := Steps(s, 2);
    SwapRuns(s2);
    var s4 := Steps(s2, SwapSteps(t.e));
    DoneRuns(s4, s.disk.rec);
    StepsAdd(s, 2, SwapSteps(t.e) + DoneSteps(t.e));
    StepsAdd(s2, SwapSteps(t.e), DoneSteps(t.e));
  }

  /** What a publication that is admitted comes to. */
  lemma AdmittedPublishes(s: Sys, e: Edit, data: Option<seq<byte>>, granted: bool, room: bool, ids: Ids)
    requires s.task.Idle? && FreshIds(s.disk.rec, ids) && Admit(s.disk, e, data, None, granted, room).Wanted?
    ensures Ends(s.(task := StartPublish(s, e, data, granted, room, ids)), 2 + SwapSteps(e) + DoneSteps(e),
                 Shown(s.disk.live, e), Kept(s.disk.rec, e, ids, Journal(e, ids, None)))
  {
    PublishCompletes(s.(task := StartPublish(s, e, data, granted, room, ids)));
  }

  predicate MayKeepLive(d: Disk, id: string, token: Token) {
    && PinListing.ValidName(id) && IsJson(id) && id in d.rec && Parses(d.rec[id])
        && !d.rec[id].receipt.state.Discarding?
    && Inspect(d.live, d.rec, id).Ok? && Inspect(d.live, d.rec, id).value.token == token
  }

  /** Keeping the live version of any receipt that is not being discarded runs to its end. */
  lemma KeepLiveCompletes(s: Sys, id: string, token: Token, granted: bool, room: bool, ids: Ids, tmp: string)
    requires MayKeepLive(s.disk, id, token) && s.task.Idle? && tmp !in s.disk.rec && !IsJson(tmp)
    ensures Ends(s.(task := StartReview(s, id, token, false, granted, room, ids, tmp)), 3,
                 s.disk.live, s.disk.rec[id := Note(Reviewed(s.disk, id))])
  {
    var v := Inspect(s.disk.live, s.disk.rec, id).value;
    var start := s.(task := StartReview(s, id, token, false, granted, room, ids, tmp));
    assert start.task == Reviewing(Review(id, v, false, tmp), Recheck);
    ReviewRuns(start, v.live);
  }

  /** A review looks again, writes its receipt and puts it in place. */
  lemma ReviewRuns(s: Sys, live: Option<Content>)
    requires s.task.Reviewing? && s.task.step == Recheck && s.task.review.tmp !in s.disk.rec
    requires s.task.review.tmp != s.task.review.id
    requires var i, v := Inspect(s.disk.live, s.disk.rec, s.task.review.id), s.task.review.view;
      && i.Ok? && i.value.receipt == v.receipt && i.value.retained == v.retained && i.value.live == live
      && (s.task.review.restore || live == v.live)
    ensures var v := s.task.review.view;
      Ends(s, 3, s.disk.live, s.disk.rec[s.task.review.id :=
             Note(v.receipt.(expected := v.retained, replacement := live, state := Resolved))])
  {
    var d, id, tmp := s.disk, s.task.review.id, s.task.review.tmp;
    var r := s.task.review.view.receipt.(expected := s.task.review.view.retained, replacement := live,
                                                state := Resolved);
    var s1 := Next(s);
    assert s1 == Sys(d, s.task.(step := WriteResolved(r)));
    var s2 := Next(s1);
    var s3 := Next(s2);
    assert s3.disk.rec == d.rec[id := Note(r)];
    assert Steps(s, 3) == Steps(s1, 2) == Steps(s2, 1) == Steps(s3, 0) == s3;
  }

  /** What a restore looks at after its publication is what the owner saw, but for the live file. */
  lemma RestoredView(d: Disk, id: string, v: View, live: Files, rec: Files, e: Edit, ids: Ids, note: Receipt)
    requires Inspect(d.live, d.rec, id) == Ok(v) && v.recorded && FreshIds(d.rec, ids)
    requires e == Edit(v.receipt.path, v.live, v.retained) && v.retained.Some? && v.receipt.path != ""
    requires !v.receipt.state.Discarding?
    requires live == Shown(d.live, e) && rec == Kept(d.rec, e, ids, note)
    ensures var i := Inspect(live, rec, id);
      i.Ok? && i.value.receipt == v.receipt && i.value.retained == v.retained && i.value.live == v.retained
  {
    Inspected(d, id);
    assert id != ids.receipt && id != ids.version && rec[id] == d.rec[id];
    assert v.receipt.version != ids.version && v.receipt.version != ids.receipt;
  }

  /** What a restore needs: the owner's view still holds, nothing else is a problem, and the retained file can be
      published. */
  predicate MayRestore(d: Disk, id: string, v: View) {
    && Inspect(d.live, d.rec, id) == Ok(v) && v.recorded && CheckOk(d.rec, Some(id)) && ValidPath(v.receipt.path)
    && v.retained.Some? && v.retained.value.Data? && v.retained.value.mode <= 0x1FF
  }

  /** What a restore publishes: nothing when the retained content is live already. */
  function RestoredFiles(rec: Files, review: Review, ids: Ids): Files {
    var v, e := review.view, Edit(review.view.receipt.path, review.view.live, review.view.retained);
    var kept := if v.live == v.retained then rec else Kept(rec, e, ids, Journal(e, ids, Some(review.id)));
    kept[review.id := Note(v.receipt.(replacement := v.retained, expected := v.retained, state := Resolved))]
  }

  function RestoreSteps(e: Edit): nat {
    if e.expected == e.replacement then 4 else 6 + SwapSteps(e) + DoneSteps(e)
  }

  /** Undisturbed, a restore shows the retained file at its path, keeps the file that was there if it was another one,
      and resolves the receipt. */
  lemma RestoreCompletes(s: Sys, review: Review, ids: Ids)
    requires s.task == Restoring(review, ids, false, true) && TaskOk(s.disk, s.task)
    requires MayRestore(s.disk, review.id, review.view)
    requires review.restore && review.tmp != review.id
    ensures var v, e := review.view, Edit(review.view.receipt.path, review.view.live, review.view.retained);
      Ends(s, RestoreSteps(e), Shown(s.disk.live, e), RestoredFiles(s.disk.rec, review, ids))
  {
    var v := review.view;
    var e := Edit(v.receipt.path, v.live, v.retained);
    RestoreStarts(s, review, ids);
    if v.live == v.retained {
      RestoreResolves(s, review, ids, e);
    } else {
      var note := Journal(e, ids, Some(review.id));
      RestoreRuns(Next(s), review, ids, e, note);
      assert Steps(s, 6 + SwapSteps(e) + DoneSteps(e)) == Steps(Next(s), 5 + SwapSteps(e) + DoneSteps(e));
    }
  }

  /** Nothing to publish: the review alone. */
  lemma RestoreResolves(s: Sys, review: Review, ids: Ids, e: Edit)
    requires s.task == Restoring(review, ids, false, true) && TaskOk(s.disk, s.task)
    requires MayRestore(s.disk, review.id, review.view)
    requires review.restore && review.tmp != review.id && review.view.live == review.view.retained
    requires e == Edit(review.view.receipt.path, review.view.live, review.view.retained)
    ensures Ends(s, 4, Shown(s.disk.live, e), RestoredFiles(s.disk.rec, review, ids))
  {
    RestoreStarts(s, review, ids);
    ReviewRuns(Next(s), review.view.live);
    assert Shown(s.disk.live, e) == s.disk.live;
    assert Steps(s, 4) == Steps(Next(s), 3);
  }

  lemma RestoreStarts(s: Sys, review: Review, ids: Ids)
    requires s.task == Restoring(review, ids, false, true)
    requires MayRestore(s.disk, review.id, review.view)
    ensures var v, e := review.view, Edit(review.view.receipt.path, review.view.live, review.view.retained);
      && Next(s) == Sys(s.disk, if v.live == v.retained then Reviewing(review, Recheck)
           else Publishing(e, v.live, ids, Journal(e, ids, Some(review.id)), WriteTmp, Some(review)))
      && v.live == At(s.disk.live, e.path)
  {
    Inspected(s.disk, review.id);
  }

  lemma RestoreRuns(s: Sys, review: Review, ids: Ids, e: Edit, note: Receipt)
    requires FreshIds(s.disk.rec, ids) && FreshName(s.disk.rec, review.tmp)
    requires !review.view.receipt.state.Discarding?
    requires review.tmp !in {ids.version, ids.tmp1, ids.tmp2} && review.restore && review.tmp != review.id
    requires !IsJson(review.tmp)
    requires var v := review.view;
      && s.task == Publishing(e, v.live, ids, note, WriteTmp, Some(review))
          && e == Edit(v.receipt.path, v.live, v.retained)
      && v.live == At(s.disk.live, e.path) != v.retained && note.version == ids.version
      && Inspect(s.disk.live, s.disk.rec, review.id) == Ok(v) && v.recorded && v.retained.Some? && v.receipt.path != ""
    ensures var v := review.view;
      Ends(s, 5 + SwapSteps(e) + DoneSteps(e), Shown(s.disk.live, e), Kept(s.disk.rec, e, ids, note)
             [review.id := Note(v.receipt.(replacement := v.retained, expected := v.retained, state := Resolved))])
  {
    PublishCompletes(s);
    var m := 2 + SwapSteps(e) + DoneSteps(e);
    var s2 := Steps(s, m);
    RestoredView(s.disk, review.id, review.view, s2.disk.live, s2.disk.rec, e, ids, note);
    ReviewRuns(s2, review.view.retained);
    StepsAdd(s, m, 3);
  }

  lemma KeepLiveClears(d: Disk, id: string)
    requires id in d.rec && IsJson(id) && PinListing.ValidName(id)
    requires Parses(d.rec[id]) && !d.rec[id].receipt.state.Discarding?
    ensures Problems(d.rec[id := Note(Reviewed(d, id))]) == Problems(d.rec) - {id}
  {
    var rec := d.rec;
    var rec' := rec[id := Note(Reviewed(d, id))];
    assert Parses(rec'[id]) && !Unsettled(rec', id);
    forall n | n in rec && n != id ensures Problem(rec', n) <==> Problem(rec, n) {
      OtherReceipt(rec, rec', id, n);
    }
  }

  /** Settling one receipt leaves all other names as much a problem as before: only a receipt that is being
      discarded can refer to another receipt. */
  lemma OtherReceipt(rec: Files, rec': Files, id: string, n: string)
    requires id in rec && IsJson(id) && rec'.Keys == rec.Keys && rec' == rec[id := rec'[id]] && n in rec && n != id
    requires Parses(rec[id]) && Parses(rec'[id]) && rec'[id].receipt.version == rec[id].receipt.version
    ensures Unsettled(rec', n) <==> Unsettled(rec, n)
  {
    if IsJson(n) {
      if Parses(rec[n]) && rec[n].receipt.version != id {
        assert At(rec', rec[n].receipt.version) == At(rec, rec[n].receipt.version);
      }
      assert Healthy(rec', n) <==> Healthy(rec, n);
    } else {
      assert forall j :: j in rec ==> (ReferredBy(rec', j, n) <==> ReferredBy(rec, j, n));
    }
  }

  /** A discard that may start runs to its end, in any directory: the version and its receipt are gone, nothing
      else. Only a receipt about itself is found changed, by the discard's own receipt. */
  lemma DiscardCompletes(s: Sys, id: string, token: Token, journal: string, tmp: string)
    requires s.task.Idle? && FreshName(s.disk.rec, tmp) && FreshJournal(s.disk.rec, journal)
    requires Inspect(s.disk.live, s.disk.rec, id).Ok? && MayDiscard(Inspect(s.disk.live, s.disk.rec, id).value, token)
    requires !ReferredBy(s.disk.rec, id, id)
    ensures var v := Inspect(s.disk.live, s.disk.rec, id).value;
      Ends(s.(task := StartDiscard(s, id, token, journal, tmp)), 4, s.disk.live, s.disk.rec - {v.receipt.version, id})
  {
    var d := s.disk;
    var v := Inspect(d.live, d.rec, id).value;
    Inspected(d, id);
    var j := if v.recorded then id else journal;
    var s0 := s.(task := StartDiscard(s, id, token, journal, tmp));
    assert s0.task == Dropping(v, Intent(v, token), j, tmp, WriteIntent);
    DropRuns(s0, v, Intent(v, token), j, tmp);
    assert d.rec - {v.receipt.version, j} == d.rec - {v.receipt.version, id};
  }

  lemma DropRuns(s: Sys, v: View, intent: Receipt, j: string, tmp: string)
    requires s.task == Dropping(v, intent, j, tmp, WriteIntent)
    requires tmp !in s.disk.rec && tmp != j && tmp != intent.version
    requires intent.version != j && At(s.disk.rec, intent.version) == v.retained
    ensures Ends(s, 4, s.disk.live, s.disk.rec - {intent.version, j})
  {
    var d := s.disk;
    var s1 := Next(s);
    var s2 := Next(s1);
    assert s2.disk.rec == d.rec[j := Note(intent)];
    var s3 := Next(s2);
    var s4 := Next(s3);
    assert s4.disk.rec == d.rec - {intent.version, j};
    assert Steps(s, 4) == Steps(s1, 3) == Steps(s2, 2) == Steps(s3, 1) == Steps(s4, 0) == s4;
  }

  lemma DiscardClears(rec: Files, id: string, version: string)
    requires Orderly(rec) && NamesValid(rec) && id in rec && !IsJson(version)
    requires if IsJson(id) then rec[id].receipt.version == version else version == id && Unreferenced(rec, id)
    ensures Problems(rec - {version, id}) <= Problems(rec) - {id}
  {
    var rec' := rec - {version, id};
    forall n | n in Problems(rec') ensures n in Problems(rec) {
      StaysUnsettled(rec, id, version, n);
    }
  }

  lemma StaysUnsettled(rec: Files, id: string, version: string, n: string)
    requires Orderly(rec) && id in rec && !IsJson(version) && n in rec && n != id && n != version
    requires if IsJson(id) then rec[id].receipt.version == version else version == id && Unreferenced(rec, id)
    ensures Unsettled(rec - {version, id}, n) ==> Unsettled(rec, n)
  {
    var rec' := rec - {version, id};
    if IsJson(n) {
      assert rec[n].receipt.version != version && Parses(rec[n]);
    } else if exists j :: j in rec && ReferredBy(rec, j, n) {
      var j :| j in rec && ReferredBy(rec, j, n);
      assert ReferredBy(rec', j, n);
    }
  }
}
