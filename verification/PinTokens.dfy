/** What an owner's token authorizes (`recovery_resolve` and `recovery_discard`, src/pin.rs), in terms of the files
    alone: exactly when a review or a discard starts, and that no token outlives what it was taken of. */
module PinTokens {
  import opened Types
  import opened PinListing
  import opened PinPlan
  import opened PinJournal
  import PinRecovery

  predicate IsReceipt(rec: Files, id: string) {
    id in rec && IsJson(id) && Parses(rec[id])
  }

  /** The live file at the path of a receipt. */
  function LiveAt(live: Files, path: string): Option<Content> {
    if path != "" && path in live then Some(live[path]) else None
  }

  /** The token is of the file with this ID as it is now: of a receipt with its live and its retained file, or of the
      content of any other file. */
  predicate TokenOfNow(live: Files, rec: Files, id: string, token: Token) {
    && id in rec
    && if IsReceipt(rec, id) then
         var r := rec[id].receipt;
         token == OfReceipt(r, LiveAt(live, r.path), if r.version in rec then Some(rec[r.version]) else None, id)
       else token == OfArtifact(id, rec[id])
  }

  /** The token with which a discard of this receipt was begun, and its version is as it was then, or gone. */
  predicate TokenOfBegun(rec: Files, id: string, token: Token) {
    && IsReceipt(rec, id)
    && var r := rec[id].receipt;
       r.state.Discarding? && r.discardToken == Some(token) && (r.version in rec ==> Some(rec[r.version]) == r.expected)
  }

  /** Nothing stands in the way of looking at the file: it is a receipt, or every name is valid and no receipt owns
      it; a malformed receipt might own any data file. */
  predicate CanBeSeen(rec: Files, id: string) {
    && ValidName(id) && id in rec
    && (IsReceipt(rec, id)
        || (NamesValid(rec)
            && forall n :: n in rec && n != id && IsJson(n) ==>
                 if Parses(rec[n]) then rec[n].receipt.version != id else IsJson(id)))
  }

  predicate MayBeDiscarded(live: Files, rec: Files, id: string, token: Token) {
    && CanBeSeen(rec, id) && (IsReceipt(rec, id) ==> !rec[id].receipt.state.Pending?)
    && (TokenOfNow(live, rec, id, token) || TokenOfBegun(rec, id, token))
  }

  predicate MayBeResolved(live: Files, rec: Files, id: string, token: Token) {
    && ValidName(id) && IsReceipt(rec, id) && !rec[id].receipt.state.Discarding? && TokenOfNow(live, rec, id, token)
  }

  /** What a receipt must say to be one: where it belongs, inside the tree, and a version of a valid name; only a
      discard may be about no path, about another receipt, or about a file still being written. */
  lemma ParsesIff(c: Content)
    ensures Parses(c) <==>
      && c.Note? && ValidName(c.receipt.version)
      && (Inside(c.receipt.path)
          || (c.receipt.state == Discarding && c.receipt.path == ""))
      && (EndsWith(c.receipt.version, ".json") ==> c.receipt.state == Discarding && c.receipt.path == "")
      && (EndsWith(c.receipt.version, ".tmp") ==> c.receipt.state == Discarding)
  {
    if c.Note? {
      ValidPathIff(c.receipt.path);
    }
  }

  // ---- What an inspection shows

  lemma InspectedExactly(live: Files, rec: Files, id: string)
    ensures Inspect(live, rec, id).Ok? <==> CanBeSeen(rec, id)
    ensures Inspect(live, rec, id).Ok? ==>
      var v := Inspect(live, rec, id).value;
      && TokenOfNow(live, rec, id, v.token)
      && (v.recorded <==> IsReceipt(rec, id))
      && (v.recorded ==> v.receipt == rec[id].receipt && v.live == LiveAt(live, v.receipt.path))
      && (!v.recorded ==> v.receipt.version == id && v.receipt.state.Resolved? && v.receipt.discardToken.None?)
      && v.retained == (if v.receipt.version in rec then Some(rec[v.receipt.version]) else None)
  {
    if ValidName(id) && id in rec && !IsReceipt(rec, id) {
      assert CanBeSeen(rec, id) <==> Inspect(live, rec, id).Ok?;
    }
  }

  lemma OneTokenNow(live: Files, rec: Files, id: string, a: Token, b: Token)
    requires TokenOfNow(live, rec, id, a)
    ensures TokenOfNow(live, rec, id, b) <==> b == a
  {
  }

  // ---- Exactly when the owner's operations start

  /** A discard deletes nothing without the token of what is there now, or the one it was begun with. */
  lemma DiscardStartsIff(s: Sys, id: string, token: Token, journal: string, tmp: string)
    ensures StartDiscard(s, id, token, journal, tmp) != Idle
       <==> MayBeDiscarded(s.disk.live, s.disk.rec, id, token)
  {
    InspectedExactly(s.disk.live, s.disk.rec, id);
    var i := Inspect(s.disk.live, s.disk.rec, id);
    if i.Ok? {
      OneTokenNow(s.disk.live, s.disk.rec, id, i.value.token, token);
      PinRecovery.TokensAreNotCyclic(i.value);
    }
  }

  lemma ReviewStartsIff(s: Sys, id: string, token: Token, restore: bool, granted: bool, room: bool, ids: Ids,
                        tmp: string)
    ensures StartReview(s, id, token, restore, granted, room, ids, tmp) != Idle
       <==> MayBeResolved(s.disk.live, s.disk.rec, id, token)
            && (restore ==> s.disk.rec[id].receipt.version in s.disk.rec)
  {
    InspectedExactly(s.disk.live, s.disk.rec, id);
    var i := Inspect(s.disk.live, s.disk.rec, id);
    if i.Ok? {
      OneTokenNow(s.disk.live, s.disk.rec, id, i.value.token, token);
    }
  }

  /** A restore that has begun publishes nothing unless what the owner saw is still there. */
  lemma RestoreStillNow(d: Disk, t: Task)
    requires t.Restoring? && RestoreNext(d, t).task != Idle
    ensures CanBeSeen(d.rec, t.review.id) && TokenOfNow(d.live, d.rec, t.review.id, t.review.view.token)
    ensures RestoreNext(d, t).disk == d
  {
    InspectedExactly(d.live, d.rec, t.review.id);
  }

  /** The owner's choice is written down exactly while the receipt and the version are as the owner saw them and, if
      the live file is to be kept, while that is. */
  lemma ChoiceStillNow(d: Disk, t: Task)
    requires t.Reviewing? && t.step.Recheck? && Parses(Note(t.review.view.receipt))
    ensures ReviewNext(d, t).disk == d
    ensures ReviewNext(d, t).task != Idle <==>
      var v := t.review.view;
      && ValidName(t.review.id) && IsReceipt(d.rec, t.review.id) && d.rec[t.review.id].receipt == v.receipt
      && At(d.rec, v.receipt.version) == v.retained
      && (t.review.restore || LiveAt(d.live, v.receipt.path) == v.live)
  {
    InspectedExactly(d.live, d.rec, t.review.id);
  }

  // ---- Old tokens

  /** The file, and for a receipt what is live at its path and its version, are the same in both. */
  predicate SameSubject(a: Disk, b: Disk, id: string) {
    && At(a.rec, id) == At(b.rec, id)
    && (IsReceipt(a.rec, id) ==>
          var r := a.rec[id].receipt;
          LiveAt(a.live, r.path) == LiveAt(b.live, r.path) && At(a.rec, r.version) == At(b.rec, r.version))
  }

  /** A token taken before the receipt, its live file or its version changed is refused, by a review and, unless it
      is the one that a begun discard wrote down, by a discard. */
  lemma OldTokenIsRefused(before: Disk, now: Sys, id: string, token: Token, journal: string, restore: bool,
                          granted: bool, room: bool, ids: Ids, tmp: string)
    requires TokenOfNow(before.live, before.rec, id, token) && !SameSubject(before, now.disk, id)
    ensures StartReview(now, id, token, restore, granted, room, ids, tmp) == Idle
    ensures !TokenOfBegun(now.disk.rec, id, token) ==> StartDiscard(now, id, token, journal, tmp) == Idle
  {
    ReviewStartsIff(now, id, token, restore, granted, room, ids, tmp);
    DiscardStartsIff(now, id, token, journal, tmp);
  }

  // ---- Every run

  /** The file that a discard under this ID deletes. */
  function GivenUp(rec: Files, id: string): string {
    if IsReceipt(rec, id) then rec[id].receipt.version else id
  }

  /** The action began this discard, with what an inspection showed at that moment. */
  predicate Began(s: Sys, a: Action, t: Task) {
    && a.Discard? && t.Dropping? && StartDiscard(s, a.id, a.token, a.journal, a.tmp) != Idle
    && Inspect(s.disk.live, s.disk.rec, a.id) == Ok(t.view)
  }

  lemma BegunOrOn(s: Sys, a: Action, s': Sys)
    requires Acts(s, a, s') && s'.task.Dropping?
    ensures Began(s, a, s'.task) || (s.task.Dropping? && s.task.view == s'.task.view)
  {
  }

  lemma {:induction false} BegunBy(states: seq<Sys>, actions: seq<Action>, i: nat, t: Task) returns (j: nat)
    requires Run(states, actions) && i < |states| && states[i].task.Dropping? && t.Dropping?
    requires states[i].task.view == t.view
    ensures j < i && Began(states[j], actions[j], t)
  {
    var a := actions[i - 1];
    BegunOrOn(states[i - 1], a, states[i]);
    if Began(states[i - 1], a, states[i].task) {
      j := i - 1;
    } else {
      j := BegunBy(states, actions, i - 1, t);
    }
  }

  /** A token of this very content authorized the discard, or one with which that was begun before. */
  predicate Chosen(s: Sys, a: Action, c: Content) {
    && a.Discard? && MayBeDiscarded(s.disk.live, s.disk.rec, a.id, a.token)
    && At(s.disk.rec, GivenUp(s.disk.rec, a.id)) == Some(c)
  }

  /** Data leaves the live tree and the recovery directory together only because the owner discarded it: with a token
      of the very content that is deleted, or to finish a discard that was begun with one. */
  lemma LostOnlyByChoice(states: seq<Sys>, actions: seq<Action>, i: nat, c: Content)
    requires Run(states, actions) && i < |actions| && !actions[i].Outside?
    requires c.Data? && Has(states[i].disk, c) && !Has(states[i + 1].disk, c)
    ensures exists j: nat {:trigger actions[j]} :: j < i && Chosen(states[j], actions[j], c)
  {
    NoContentLost(states, actions, i);
    var a := actions[i];
    DeletedIsRetained(states[i], states[i + 1], c);
    var j := BegunBy(states, actions, i, states[i].task);
    BegunIsChosen(states[j], actions[j], states[i].task, c);
  }

  lemma BegunIsChosen(s: Sys, a: Action, t: Task, c: Content)
    requires Began(s, a, t) && t.view.retained == Some(c)
    ensures Chosen(s, a, c)
  {
    DiscardStartsIff(s, a.id, a.token, a.journal, a.tmp);
    InspectedExactly(s.disk.live, s.disk.rec, a.id);
  }

  lemma DeletedIsRetained(s: Sys, s': Sys, c: Content)
    requires Deletes(s.task) && s' == Next(s) && s'.disk == Unlink(s.disk, s.task.intent.version)
    requires Has(s.disk, c) && !Has(s'.disk, c)
    ensures s.task.view.retained == Some(c)
  {
    if At(s.disk.rec, s.task.intent.version) != Some(c) {
      UnlinkKeepsOthers(s.disk, s.task.intent.version, c);
      assert false;
    }
  }

  lemma UnlinkKeepsOthers(d: Disk, name: string, c: Content)
    requires Has(d, c) && At(d.rec, name) != Some(c)
    ensures Has(Unlink(d, name), c)
  {
    if p :| p in d.live && d.live[p] == c {
      assert Unlink(d, name).live[p] == c;
    } else {
      var n :| n in d.rec && d.rec[n] == c;
      assert Unlink(d, name).rec[n] == c;
    }
  }
}
