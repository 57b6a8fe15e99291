/** A pin tree and its recovery directory as the program changes them (src/pin.rs): each operation as the
    steps it takes when nothing comes in between, proved to reach what the journal's steps reach. */
module PinTree {
  import opened Types
  import opened Names
  import opened PinPlan
  import opened PinJournal
  import PinListing
  import PinRecovery
  import opened PinTokens

  class Tree {
    var live: Files
    var recovery: Files

    function Value(): Disk
      reads this
    {
      Disk(live, recovery, {})
    }

    constructor (l: Files, r: Files)
      ensures live == l && recovery == r
    {
      live, recovery := l, r;
    }

    // ---- check_recovery_except

    /** `recovery_usage`, as far as it can fail: the walk ends at the first name that is not valid. */
    method Walk(names: seq<string>) returns (ok: bool)
      requires forall n :: n in names <==> n in recovery
      ensures ok <==> NamesValid(recovery)
    {
      var i := 0;
      while i < |names|
        invariant i <= |names|
        invariant forall n :: n in names[..i] ==> PinListing.ValidName(n)
      {
        assert names[i] in names && names[..i + 1] == names[..i] + [names[i]];
        if !PinListing.ValidName(names[i]) {
          return false;
        }
        i := i + 1;
      }
      assert names[..i] == names;
      ok := true;
    }

    /** The versions that sound receipts refer to, or the first receipt that is a problem. */
    method Referenced(names: seq<string>, ignored: Option<string>) returns (versions: set<string>, ok: bool)
      requires forall n :: n in names ==> n in recovery
      ensures ok <==> forall n :: n in names && IsJson(n) && Some(n) != ignored ==> Healthy(recovery, n)
      ensures ok ==>
        versions == Versions(recovery, names, ignored)
    {
      versions := {};
      var i := 0;
      while i < |names|
        invariant i <= |names|
        invariant forall n :: n in names[..i] && IsJson(n) && Some(n) != ignored ==> Healthy(recovery, n)
        invariant versions == Versions(recovery, names[..i], ignored)
      {
        var name := names[i];
        assert names[..i + 1] == names[..i] + [name];
        OneMoreName(recovery, names[..i], ignored, name);
        if IsJson(name) && Some(name) != ignored {
          if !Healthy(recovery, name) {
            return versions, false;
          }
          versions := versions + {recovery[name].receipt.version};
        }
        i := i + 1;
      }
      assert names[..i] == names;
      ok := true;
    }

    /** Every other file is a version that some receipt refers to. */
    method AllOwned(names: seq<string>, versions: set<string>, ignored: Option<string>) returns (ok: bool)
      ensures ok <==> forall n :: n in names && !IsJson(n) ==> n in versions || OwnedBy(recovery, ignored, n)
    {
      var i := 0;
      while i < |names|
        invariant i <= |names|
        invariant forall n :: n in names[..i] && !IsJson(n) ==> n in versions || OwnedBy(recovery, ignored, n)
      {
        var name := names[i];
        assert names[..i + 1] == names[..i] + [name];
        if !IsJson(name) && name !in versions && !OwnedBy(recovery, ignored, name) {
          return false;
        }
        i := i + 1;
      }
      assert names[..i] == names;
      ok := true;
    }

    method CheckRecovery(ignored: Option<string>) returns (ok: bool)
      ensures ok <==> CheckOk(recovery, ignored)
    {
      var names := Sorted(recovery.Keys);
      ok := Walk(names);
      if !ok {
        return;
      }
      ok := Accounted(names, ignored);
    }

    /** The two loops over the names. */
    method Accounted(names: seq<string>, ignored: Option<string>) returns (ok: bool)
      requires (forall n :: n in names <==> n in recovery) && NamesValid(recovery)
      ensures ok <==> CheckOk(recovery, ignored)
    {
      var versions;
      versions, ok := Referenced(names, ignored);
      if ok {
        OwnersReferTo(recovery, names, ignored);
        ok := AllOwned(names, versions, ignored);
      }
    }

    // ---- inspection

    /** `artifact_inspection`: no other receipt may own the file, and none may be malformed unless it is one itself. */
    method Artifact(id: string) returns (r: Result<View>)
      ensures SameOutcome(r, InspectArtifact(recovery, id))
    {
      var names := Sorted(recovery.Keys);
      var e := Hindrance(names, id);
      ArtifactOutcome(recovery, id);
      if e.Some? {
        return Err(e.value);
      }
      if id !in recovery {
        return Err(Usage);
      }
      var seen := Some(recovery[id]);
      var note := Receipt("", seen, None, id, Resolved, None, None);
      return Ok(View(false, note, None, seen, OfArtifact(id, recovery[id])));
    }

    method Hindrance(names: seq<string>, id: string) returns (e: Option<Error>)
      requires forall n :: n in names <==> n in recovery
      ensures e.None? <==> NamesValid(recovery) && forall n :: !Hinders(recovery, id, n)
    {
      var i := 0;
      while i < |names|
        invariant i <= |names|
        invariant forall n :: n in names[..i] ==> PinListing.ValidName(n) && !Hinders(recovery, id, n)
      {
        var name := names[i];
        assert name in names && names[..i + 1] == names[..i] + [name];
        if !PinListing.ValidName(name) {
          return Some(Protocol);
        }
        if name != id && IsJson(name) {
          if Parses(recovery[name]) {
            if recovery[name].receipt.version == id {
              assert Hinders(recovery, id, name);
              return Some(Usage);
            }
          } else if !IsJson(id) {
            assert Hinders(recovery, id, name);
            return Some(Protocol);
          }
        }
        i := i + 1;
      }
      assert names[..i] == names;
      return None;
    }

    method Inspection(id: string) returns (r: Result<View>)
      ensures SameOutcome(r, Inspect(live, recovery, id))
    {
      if !PinListing.ValidName(id) {
        return Err(Protocol);
      }
      if !IsJson(id) {
        r := Artifact(id);
        return;
      }
      if id !in recovery {
        return Err(Usage);
      }
      if !Parses(recovery[id]) {
        r := Artifact(id);
        return;
      }
      var note := recovery[id].receipt;
      var now := if note.path == "" then None else At(live, note.path);
      var retained := At(recovery, note.version);
      return Ok(View(true, note, now, retained, OfReceipt(note, now, retained, id)));
    }

    // ---- apply_locked

    /** `write_receipt`: a finished file is renamed over the receipt's place. */
    method WriteReceipt(tmp: string, name: string, r: Receipt)
      requires tmp !in recovery && tmp != name
      modifies this`recovery
      ensures recovery == old(recovery)[name := Note(r)]
    {
      recovery := recovery[tmp := Note(r)];
      recovery := (recovery - {tmp})[name := recovery[tmp]];
    }

    /** Puts the wanted content in place; what was there goes to the version. */
    method Exchange(e: Edit, version: string)
      requires version !in recovery && e.expected == At(live, e.path) != e.replacement
      modifies this
      ensures live == Shown(old(live), e) && recovery == Moved(old(recovery), e, version)
    {
      if e.replacement.Some? {
        recovery := recovery[version := e.replacement.value];
        if e.path in live {
          live, recovery := live[e.path := recovery[version]], recovery[version := live[e.path]];
        } else {
          live, recovery := live[e.path := recovery[version]], recovery - {version};
        }
      } else {
        live, recovery := live - {e.path}, recovery[version := live[e.path]];
      }
    }

    /** Publishes one change and keeps what it replaced; whatever is turned down changes nothing. */
    method ApplyLocked(e: Edit, data: Option<seq<byte>>, ignored: Option<string>, granted: bool, room: bool, ids: Ids)
      returns (r: Result<bool>)
      requires FreshIds(recovery, ids)
      modifies this
      ensures match Admit(old(Value()), e, data, ignored, granted, room)
              case TurnedDown => r.Err? && live == old(live) && recovery == old(recovery)
              case Nothing => r == Ok(false) && live == old(live) && recovery == old(recovery)
              case Wanted(_) =>
                r == Ok(true) && live == Shown(old(live), e)
                    && recovery == Kept(old(recovery), e, ids, Journal(e, ids, ignored))
      ensures r == Ok(true) <==>
        && CheckOk(old(recovery), ignored) && Inside(e.path) && !granted && room
        && At(old(live), e.path) == e.expected != e.replacement
        && (e.replacement.Some? ==>
              && data.Some? && e.replacement.value.Data? && e.replacement.value.bytes == data.value
              && e.replacement.value.mode <= 0x1FF)
      ensures r != Ok(true) ==> live == old(live) && recovery == old(recovery)
      ensures r == Ok(true) ==>
        && At(live, e.path) == e.replacement
        && (forall p :: p in live.Keys + old(live).Keys && p != e.path ==> At(live, p) == At(old(live), p))
        && recovery == match e.expected
                       case None => old(recovery)
                       case Some(was) => old(recovery)[ids.version := was][ids.receipt :=
                         Note(Receipt(e.path, Some(was), e.replacement, ids.version, Retained, ignored, None))]
    {
      ValidPathIff(e.path);
      var sound := CheckRecovery(ignored);
      if !sound {
        return Err(PinConflict);
      }
      if e.replacement.Some? {
        if data.None? {
          return Err(Protocol);
        }
        var wanted := e.replacement.value;
        if wanted.Note? || wanted.mode > 0x1FF || Data(data.value, wanted.mode) != wanted {
          return Err(Protocol);
        }
      }
      if !ValidPath(e.path) {
        return Err(Protocol);
      }
      var current := At(live, e.path);
      if current == e.replacement {
        return Ok(false);
      }
      if current != e.expected {
        return Err(PinConflict);
      }
      if granted {
        return Err(Protocol);
      }
      if !room {
        return Err(Usage);
      }
      Publish(e, Journal(e, ids, ignored), ids);
      return Ok(true);
    }

    method Publish(e: Edit, note: Receipt, ids: Ids)
      requires NewNames(recovery, ids) && e.expected == At(live, e.path) != e.replacement
      modifies this
      ensures live == Shown(old(live), e) && recovery == Kept(old(recovery), e, ids, note)
    {
      WriteReceipt(ids.tmp1, ids.receipt, note);
      Exchange(e, ids.version);
      WriteReceipt(ids.tmp2, ids.receipt, note.(state := DoneState(e)));
      if e.expected.None? {
        recovery := recovery - {ids.receipt};
      }
    }

    // ---- recovery_resolve and recovery_discard

    /** Puts the retained file of a receipt back at its path, through the same journal. */
    method Restore(id: string, v: View, granted: bool, room: bool, ids: Ids) returns (r: Result<()>)
      requires FreshIds(recovery, ids) && Inspect(live, recovery, id) == Ok(v) && v.recorded
      requires !v.receipt.state.Discarding?
      modifies this
      ensures match Restored(old(Value()), id, v, granted, room, ids)
              case None => r.Err? && live == old(live) && recovery == old(recovery)
              case Some(d) =>
                && r.Ok? && live == d.live && recovery == d.rec && id in recovery
                && Inspect(live, recovery, id).Ok?
                && var after := Inspect(live, recovery, id).value;
                   after.receipt == v.receipt && after.retained == v.retained == after.live
    {
      if v.retained.None? || v.retained.value.Note? {
        return Err(Usage);
      }
      Inspected(Value(), id);
      ghost var before := Value();
      var e := Edit(v.receipt.path, v.live, v.retained);
      var applied := ApplyLocked(e, Some(v.retained.value.bytes), Some(id), granted, room, ids);
      if applied.Err? {
        return Err(applied.error);
      }
      if applied.value {
        RestoredView(before, id, v, live, recovery, e, ids, Journal(e, ids, Some(id)));
      }
      return Ok(());
    }

    /** The owner's choice for a recorded version: keep the live file, or put the retained one back. */
    method Resolve(id: string, token: Token, restore: bool, granted: bool, room: bool, ids: Ids, tmp: string)
      returns (r: Result<()>)
      requires FreshIds(recovery, ids)
      requires FreshName(recovery, tmp) && tmp !in {ids.version, ids.tmp1, ids.tmp2}
      modifies this
      ensures !MayBeResolved(old(live), old(recovery), id, token) ==>
        r.Err? && live == old(live) && recovery == old(recovery)
      ensures match OwnerChoice(old(Value()), id, token, restore, granted, room, ids)
              case None => r.Err? && live == old(live) && recovery == old(recovery)
              case Some(d) => r.Ok? && live == d.live && recovery == d.rec
    {
      ResolvesIff(Value(), id, token);
      var i := Inspection(id);
      if i.Err? || i.value.token != token || !i.value.recorded || i.value.receipt.state.Discarding? {
        return Err(PinConflict);
      }
      r := Settle(id, i.value, restore, granted, room, ids, tmp);
    }

    method Settle(id: string, v: View, restore: bool, granted: bool, room: bool, ids: Ids, tmp: string)
      returns (r: Result<()>)
      requires Inspect(live, recovery, id) == Ok(v) && v.recorded && !v.receipt.state.Discarding?
      requires FreshIds(recovery, ids) && tmp !in recovery && !IsJson(tmp) && tmp !in {ids.version, ids.tmp1, ids.tmp2}
      modifies this
      ensures match Settled(old(Value()), id, v, restore, granted, room, ids)
              case None => r.Err? && live == old(live) && recovery == old(recovery)
              case Some(d) => r.Ok? && live == d.live && recovery == d.rec
    {
      Inspected(Value(), id);
      if restore {
        r := Restore(id, v, granted, room, ids);
        if r.Err? {
          return;
        }
      }
      r := Conclude(id, v, restore, tmp);
    }

    /** Looks once more, and writes down what the owner chose. */
    method Conclude(id: string, v: View, restore: bool, tmp: string) returns (r: Result<()>)
      requires tmp !in recovery && tmp != id
      modifies this`recovery
      ensures var i := Inspect(live, old(recovery), id);
        if i.Ok? && i.value.receipt == v.receipt && i.value.retained == v.retained
            && (restore || i.value.live == v.live)
        then r.Ok? && recovery == old(recovery)[id := Note(Concluded(v, i.value.live))]
        else r.Err? && recovery == old(recovery)
    {
      var after := Inspection(id);
      if after.Err? || after.value.receipt != v.receipt || after.value.retained != v.retained
         || (!restore && after.value.live != v.live) {
        return Err(PinConflict);
      }
      WriteReceipt(tmp, id, v.receipt.(expected := after.value.retained, replacement := after.value.live,
                                              state := Resolved));
      return Ok(());
    }

    /** Deletes one retained version that the owner gives up, with its receipt. A receipt about itself is written
        again, and then found changed. */
    method Discard(id: string, token: Token, journal: string, tmp: string) returns (r: Result<()>)
      requires FreshName(recovery, tmp) && FreshJournal(recovery, journal)
      modifies this`recovery
      ensures !MayBeDiscarded(live, old(recovery), id, token) ==> r.Err? && recovery == old(recovery)
      ensures MayBeDiscarded(live, old(recovery), id, token) ==>
        if ReferredBy(old(recovery), id, id) then
          r.Err? && recovery == old(recovery)[id := Note(old(recovery)[id].receipt.(
            state := Discarding, expected := Some(old(recovery)[id]), discardToken := Some(token)))]
        else r.Ok? && recovery == old(recovery) - {GivenUp(old(recovery), id), id}
    {
      DiscardStartsIff(Sys(Value(), Idle), id, token, journal, tmp);
      InspectedExactly(live, recovery, id);
      var i := Inspection(id);
      if i.Err? {
        return Err(i.error);
      }
      var v := i.value;
      var resume := v.receipt.state.Discarding? && v.receipt.discardToken == Some(token);
      if (v.token != token && !resume) || v.receipt.state.Pending?
         || (resume && v.retained.Some? && v.retained != v.receipt.expected) {
        return Err(PinConflict);
      }
      Inspected(Value(), id);
      r := Drop(v.retained, Intent(v, token), if v.recorded then id else journal, tmp);
    }

    /** Writes down that the version is given up, looks once more, and deletes it with its receipt. */
    method Drop(retained: Option<Content>, intent: Receipt, journal: string, tmp: string) returns (r: Result<()>)
      requires tmp !in recovery && tmp != journal && tmp != intent.version
      requires retained == intent.expected == At(recovery, intent.version)
      modifies this`recovery
      ensures if intent.version == journal then r.Err? && recovery == old(recovery)[journal := Note(intent)]
              else r.Ok? && recovery == old(recovery) - {intent.version, journal}
    {
      PinRecovery.ReceiptsAreNotCyclic(intent);
      WriteReceipt(tmp, journal, intent);
      if At(recovery, intent.version) != retained {
        return Err(PinConflict);
      }
      recovery := recovery - {intent.version};
      recovery := recovery - {journal};
      return Ok(());
    }
  }

  lemma ResolvesIff(d: Disk, id: string, token: Token)
    ensures MayBeResolved(d.live, d.rec, id, token) <==>
      var i := Inspect(d.live, d.rec, id);
      i.Ok? && i.value.token == token && i.value.recorded && !i.value.receipt.state.Discarding?
  {
    InspectedExactly(d.live, d.rec, id);
    if Inspect(d.live, d.rec, id).Ok? {
      OneTokenNow(d.live, d.rec, id, Inspect(d.live, d.rec, id).value.token, token);
    }
  }

  lemma ArtifactOutcome(rec: Files, id: string)
    ensures InspectArtifact(rec, id).Ok? <==> NamesValid(rec) && id in rec && forall n :: !Hinders(rec, id, n)
  {
    assert (exists n :: Hinders(rec, id, n)) <==>
      exists n :: n in rec && n != id && IsJson(n)
        && (if Parses(rec[n]) then rec[n].receipt.version == id else !IsJson(id)) by {
      forall n | n in rec && n != id && IsJson(n)
                 && (if Parses(rec[n]) then rec[n].receipt.version == id else !IsJson(id))
        ensures Hinders(rec, id, n)
      {
      }
    }
  }

  /** Which of several errors comes first depends on the order of the directory. */
  predicate SameOutcome(r: Result<View>, expected: Result<View>) {
    if expected.Ok? then r == expected else r.Err?
  }

  /** This receipt stands in the way of inspecting a file on its own. */
  predicate Hinders(rec: Files, id: string, name: string) {
    && name in rec && name != id && IsJson(name)
    && if Parses(rec[name]) then rec[name].receipt.version == id else !IsJson(id)
  }

  predicate NewNames(rec: Files, ids: Ids) {
    && ids.version !in rec && ids.receipt !in rec && ids.tmp1 !in rec && ids.tmp2 !in rec
    && ids.receipt !in {ids.version, ids.tmp1, ids.tmp2} && ids.version !in {ids.tmp1, ids.tmp2}
  }

  /** The ignored receipt can own a staged file. */
  predicate OwnedBy(rec: Files, ignored: Option<string>, name: string) {
    ignored.Some? && ReferredBy(rec, ignored.value, name)
  }

  /** The versions that the sound receipts among some names refer to. */
  function Versions(rec: Files, names: seq<string>, ignored: Option<string>): set<string> {
    set n | n in names && n in rec && IsJson(n) && Some(n) != ignored && Healthy(rec, n) :: rec[n].receipt.version
  }

  lemma OneMoreName(rec: Files, names: seq<string>, ignored: Option<string>, name: string)
    requires name in rec
    ensures Versions(rec, names + [name], ignored)
         == Versions(rec, names, ignored)
            + if IsJson(name) && Some(name) != ignored && Healthy(rec, name) then {rec[name].receipt.version} else {}
  {
  }

  lemma OwnersReferTo(rec: Files, names: seq<string>, ignored: Option<string>)
    requires forall n :: n in names <==> n in rec
    requires forall n :: n in rec && IsJson(n) && Some(n) != ignored ==> Healthy(rec, n)
    ensures forall n :: n in Versions(rec, names, ignored) || OwnedBy(rec, ignored, n) <==>
      exists id :: id in rec && ReferredBy(rec, id, n)
  {
    var versions := Versions(rec, names, ignored);
    forall n | exists id :: id in rec && ReferredBy(rec, id, n) ensures n in versions || OwnedBy(rec, ignored, n) {
      var id :| id in rec && ReferredBy(rec, id, n);
      assert Some(id) != ignored ==> rec[id].receipt.version == n;
    }
    forall n | n in versions ensures exists id :: id in rec && ReferredBy(rec, id, n) {
      var id :| id in rec && IsJson(id) && Some(id) != ignored && rec[id].receipt.version == n;
      assert Healthy(rec, id) && ReferredBy(rec, id, n);
    }
  }

  /** What an owner's choice comes to, or none when it is turned down. */
  function OwnerChoice(d: Disk, id: string, token: Token, restore: bool, granted: bool, room: bool,
                       ids: Ids): Option<Disk> {
    var i := Inspect(d.live, d.rec, id);
    if i.Err? || i.value.token != token || !i.value.recorded || i.value.receipt.state.Discarding? then None
    else Settled(d, id, i.value, restore, granted, room, ids)
  }

  function Settled(d: Disk, id: string, v: View, restore: bool, granted: bool, room: bool, ids: Ids): Option<Disk> {
    if !restore then Some(d.(rec := d.rec[id := Note(Concluded(v, v.live))])) else
    match Restored(d, id, v, granted, room, ids)
    case None => None
    case Some(d') => Some(d'.(rec := d'.rec[id := Note(Concluded(v, v.retained))]))
  }

  function Concluded(v: View, live: Option<Content>): Receipt {
    v.receipt.(expected := v.retained, replacement := live, state := Resolved)
  }

  function Restored(d: Disk, id: string, v: View, granted: bool, room: bool, ids: Ids): Option<Disk> {
    if v.retained.None? || v.retained.value.Note? then None else
    var e := Edit(v.receipt.path, v.live, v.retained);
    match Admit(d, e, Some(v.retained.value.bytes), Some(id), granted, room)
    case TurnedDown => None
    case Nothing => Some(d)
    case Wanted(_) => Some(d.(live := Shown(d.live, e), rec := Kept(d.rec, e, ids, Journal(e, ids, Some(id)))))
  }
}
