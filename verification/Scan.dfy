/** Serving and following the pages of one neighbour's history (`page` and `sync_peer`,
    src/history.rs): a scan misses nothing and ends. */
module Scan {
  import opened Types
  import opened History
  import opened Advance
  import opened Encoding
  import opened Storage
  import opened Retention
  import opened Update
  import opened Execution
  import opened Edits
  import opened Saves
  import opened Network

  const PAGE_BYTES: nat := 48 * 1024 * 1024

  // ---- Serving a page

  function InRange(s: Store, after: nat, high: nat): set<Invocation> {
    set k | k in s.entries && after < s.entries[k].change <= high
  }

  type Sizes = Published -> nat  // the length of an item's JSON text

  datatype Filled = Filled(rows: seq<Published>, next: nat)

  /** The loop of `page` over the selected entries, oldest first. */
  function Fill(s: Store, size: Sizes, list: seq<Invocation>, used: nat, so: Filled): Result<Filled>
    requires forall k :: k in list ==> k in s.entries
    decreases |list|
  {
    if list == [] then Ok(so) else
    var p := Export(s, list[0]);
    if size(p) > PAGE_BYTES then Err(Protocol)
    else if |so.rows| == PAGE_ROWS || used + size(p) > PAGE_BYTES then Ok(so)
    else Fill(s, size, list[1..], used + size(p), Filled(so.rows + [p], p.change))
  }

  predicate Resets(s: Store, epoch: string, after: nat) {
    epoch != s.epoch || after > s.clock
  }

  function Boundary(s: Store, epoch: string, after: nat, high: Option<nat>): nat {
    if Resets(s, epoch, after) || high.None? || high.value > s.clock then s.clock else high.value
  }

  ghost function MakePage(s: Store, size: Sizes, epoch: string, after: nat, high: Option<nat>): Result<Page> {
    var reset := Resets(s, epoch, after);
    var start := if reset then 0 else after;
    var top := Boundary(s, epoch, after, high);
    if top < start then Err(Protocol)
    else PageOver(s, size, reset, start, top, ByAge(s.entries, InRange(s, start, top)))
  }

  function PageOver(s: Store, size: Sizes, reset: bool, start: nat, top: nat, list: seq<Invocation>): Result<Page>
    requires forall k :: k in list ==> k in s.entries
  {
    var filled :- Fill(s, size, list, 0, Filled([], start));
    var complete := |filled.rows| == |list|;
    Ok(Page(s.epoch, reset, top, if complete then top else filled.next, complete, filled.rows))
  }

  // ---- Following it

  function AskedHigh(asked: Progress): Option<nat> {
    if !asked.complete && asked.epoch != "" then Some(asked.high) else None
  }

  predicate OrderedFrom(entries: seq<Published>, previous: nat, next: nat) {
    entries == [] || (previous < entries[0].change <= next && OrderedFrom(entries[1..], entries[0].change, next))
  }

  /** The checks `sync_peer` makes before it looks at the store again. */
  predicate Accepts(asked: Progress, page: Page) {
    && |page.entries| <= PAGE_ROWS && page.next <= page.high && page.epoch != ""
    && (!page.reset ==> page.epoch == asked.epoch && asked.cursor <= page.next)
    && (page.complete ==> page.next == page.high)
    && OrderedFrom(page.entries, if page.reset then 0 else asked.cursor, page.next)
  }

  predicate Changes(asked: Progress, page: Page) {
    page.reset || page.next != asked.cursor || page.entries != [] || page.complete != asked.complete
        || page.high != asked.high
  }

  predicate StillCurrent(s: Store, peer: string, asked: Progress, trust: set<(string, PublicKey)>) {
    var now := ProgressOf(s, peer);
    s.trust == trust && now.epoch == asked.epoch && now.cursor == asked.cursor && now.high == asked.high
  }

  // ---- What one page holds

  ghost predicate AgesRise(entries: Entries, list: seq<Invocation>, start: nat, top: nat) {
    && (forall k :: k in list ==> k in entries && start < entries[k].change <= top)
    && (forall i, j :: 0 <= i < j < |list| ==> entries[list[i]].change < entries[list[j]].change)
  }

  lemma RangeList(s: Store, start: nat, top: nat) returns (list: seq<Invocation>)
    requires SoundEntries(s.clock, s.entries)
    ensures list == ByAge(s.entries, InRange(s, start, top)) && AgesRise(s.entries, list, start, top)
    ensures forall k :: k in list <==> k in InRange(s, start, top)
  {
    list := ByAge(s.entries, InRange(s, start, top));
    forall i, j | 0 <= i < j < |list| ensures s.entries[list[i]].change < s.entries[list[j]].change {
      assert list[i] in list && list[j] in list;
    }
  }

  /** The rows are the exports of the first entries, in order; at least one while any is left. */
  lemma {:induction false} FillTakesPrefix(s: Store, size: Sizes, list: seq<Invocation>, used: nat, so: Filled,
                                           f: Filled)
    returns (n: nat)
    requires (forall k :: k in list ==> k in s.entries)
    requires |so.rows| <= PAGE_ROWS && Fill(s, size, list, used, so) == Ok(f)
    ensures n <= |list| && (used == 0 && list != [] && |so.rows| < PAGE_ROWS ==> n > 0)
    ensures f.rows == so.rows + Exports(s, list[..n]) && |f.rows| <= PAGE_ROWS
    ensures f.next == if n == 0 then so.next else s.entries[list[n - 1]].change
    decreases |list|
  {
    n := 0;
    assert list[..0] == [];
    if list != [] {
      var p := Export(s, list[0]);
      var goesOn, used' := FillStep(s, size, list, used, so, p);
      if goesOn {
        var m := FillTakesPrefix(s, size, list[1..], used', Filled(so.rows + [p], p.change), f);
        n := m + 1;
        ExportsStep(s, list, m, p);
        PrependedOn(so.rows, p, Exports(s, list[1..][..m]));
      }
    }
  }

  lemma PrependedOn<T>(a: seq<T>, x: T, b: seq<T>)
    ensures (a + [x]) + b == a + ([x] + b)
  {
  }

  lemma FillStep(s: Store, size: Sizes, list: seq<Invocation>, used: nat, so: Filled, p: Published)
    returns (goesOn: bool, used': nat)
    requires list != [] && (forall k :: k in list ==> k in s.entries) && p == Export(s, list[0])
    requires Fill(s, size, list, used, so).Ok?
    ensures used == 0 && |so.rows| < PAGE_ROWS ==> goesOn
    ensures goesOn ==> |so.rows| != PAGE_ROWS
    ensures Fill(s, size, list, used, so)
         == if goesOn then Fill(s, size, list[1..], used', Filled(so.rows + [p], p.change)) else Ok(so)
  {
    goesOn, used' := |so.rows| != PAGE_ROWS && used + size(p) <= PAGE_BYTES, used + size(p);
  }

  function Exports(s: Store, keys: seq<Invocation>): (rows: seq<Published>)
    requires forall k :: k in keys ==> k in s.entries
    ensures |rows| == |keys| && forall i :: 0 <= i < |keys| ==> rows[i] == Export(s, keys[i])
  {
    if keys == [] then [] else [Export(s, keys[0])] + Exports(s, keys[1..])
  }

  lemma ExportsStep(s: Store, list: seq<Invocation>, m: nat, p: Published)
    requires m < |list| && (forall k :: k in list ==> k in s.entries) && p == Export(s, list[0])
    ensures Exports(s, list[..m + 1]) == [p] + Exports(s, list[1..][..m])
    ensures m > 0 ==> list[m] == list[1..][m - 1]
  {
    assert list[..m + 1] == [list[0]] + list[1..][..m];
  }

  lemma TailRises(entries: Entries, list: seq<Invocation>, start: nat, top: nat)
    requires list != [] && AgesRise(entries, list, start, top)
    ensures list[0] in entries && AgesRise(entries, list[1..], entries[list[0]].change, top)
  {
    assert list[0] in list;
    forall k | k in list[1..] ensures entries[list[0]].change < entries[k].change {
      var i :| 0 <= i < |list[1..]| && list[1..][i] == k;
      assert list[i + 1] == k;
    }
  }

  lemma {:induction false} ExportsAreOrdered(s: Store, keys: seq<Invocation>, start: nat, next: nat)
    requires AgesRise(s.entries, keys, start, next)
    ensures OrderedFrom(Exports(s, keys), start, next)
  {
    if keys != [] {
      TailRises(s.entries, keys, start, next);
      ExportsAreOrdered(s, keys[1..], s.entries[keys[0]].change, next);
      assert Exports(s, keys)[1..] == Exports(s, keys[1..]);
    }
  }

  /** The entries a page must show: those past the start and up to where the page says it got. */
  ghost predicate Shows(entries: Entries, start: nat, page: Page) {
    forall k :: k in entries && start < entries[k].change <= page.next ==>
      exists i :: 0 <= i < |page.entries| && page.entries[i].record == entries[k].record
  }

  lemma PageOverShape(s: Store, size: Sizes, reset: bool, start: nat, top: nat, list: seq<Invocation>, page: Page)
    returns (n: nat)
    requires (forall k :: k in list ==> k in s.entries) && PageOver(s, size, reset, start, top, list) == Ok(page)
    ensures page.epoch == s.epoch && page.reset == reset && page.high == top
    ensures n <= |list| && (list != [] ==> n > 0)
    ensures page.entries == Exports(s, list[..n]) && |page.entries| <= PAGE_ROWS
    ensures page.complete <==> n == |list|
    ensures page.next == if n == |list| then top else s.entries[list[n - 1]].change
  {
    n := FillTakesPrefix(s, size, list, 0, Filled([], start), Fill(s, size, list, 0, Filled([], start)).value);
  }

  lemma PageShape(s: Store, size: Sizes, epoch: string, after: nat, high: Option<nat>, page: Page)
    returns (start: nat, n: nat)
    requires SoundEntries(s.clock, s.entries) && MakePage(s, size, epoch, after, high) == Ok(page)
    ensures start == (if page.reset then 0 else after) && page.reset == Resets(s, epoch, after)
    ensures page.epoch == s.epoch && page.high == Boundary(s, epoch, after, high) && start <= page.high <= s.clock
    ensures var list := ByAge(s.entries, InRange(s, start, page.high));
      && n <= |list| && (list != [] ==> n > 0) && AgesRise(s.entries, list, start, page.high)
      && page.entries == Exports(s, list[..n]) && |page.entries| <= PAGE_ROWS
      && (page.complete <==> n == |list|)
      && page.next == if n == |list| then page.high else s.entries[list[n - 1]].change
  {
    var reset := Resets(s, epoch, after);
    start := if reset then 0 else after;
    var top := Boundary(s, epoch, after, high);
    var list := RangeList(s, start, top);
    n := PageOverShape(s, size, reset, start, top, list, page);
  }

  /** A page shows every entry up to its `next`, in an order the receiver accepts, and an incomplete
      page gets strictly further and stays below its boundary. */
  lemma PageIsSound(s: Store, size: Sizes, asked: Progress, page: Page)
    requires SoundEntries(s.clock, s.entries) && s.epoch != ""
    requires MakePage(s, size, asked.epoch, asked.cursor, AskedHigh(asked)) == Ok(page)
    ensures Accepts(asked, page) && page.epoch == s.epoch && page.high <= s.clock
    ensures Shows(s.entries, if page.reset then 0 else asked.cursor, page)
    ensures !page.complete ==> (if page.reset then 0 else asked.cursor) < page.next < page.high
  {
    var start, n := PageShape(s, size, asked.epoch, asked.cursor, AskedHigh(asked), page);
    var list := ByAge(s.entries, InRange(s, start, page.high));
    PageOrder(s, list, n, start, page);
    PageShows(s, list, n, start, page);
  }

  lemma PageShows(s: Store, list: seq<Invocation>, n: nat, start: nat, page: Page)
    requires AgesRise(s.entries, list, start, page.high) && n <= |list|
    requires forall k :: k in InRange(s, start, page.high) ==> k in list
    requires page.entries == Exports(s, list[..n]) && page.next <= page.high
    requires n < |list| ==> n > 0 && page.next == s.entries[list[n - 1]].change
    ensures Shows(s.entries, start, page)
  {
    forall k | k in s.entries && start < s.entries[k].change <= page.next
      ensures exists i :: 0 <= i < |page.entries| && page.entries[i].record == s.entries[k].record
    {
      assert k in InRange(s, start, page.high);
      var i :| 0 <= i < |list| && list[i] == k;
      assert i < n;
      assert page.entries[i] == Export(s, list[..n][i]);
    }
  }

  lemma PageOrder(s: Store, list: seq<Invocation>, n: nat, start: nat, page: Page)
    requires AgesRise(s.entries, list, start, page.high) && n <= |list| && (list != [] ==> n > 0) && start <= page.high
    requires page.entries == Exports(s, list[..n])
    requires page.next == if n == |list| then page.high else s.entries[list[n - 1]].change
    ensures OrderedFrom(page.entries, start, page.next) && start <= page.next <= page.high
    ensures n < |list| ==> start < page.next < page.high
  {
    assert forall i :: 0 <= i < n ==> list[..n][i] == list[i] && list[i] in list;
    if n < |list| {
      assert list[n] in list && list[n - 1] in list;
      assert s.entries[list[n - 1]].change < s.entries[list[n]].change;
    }
    assert AgesRise(s.entries, list[..n], start, page.next) by {
      forall k | k in list[..n] ensures k in s.entries && start < s.entries[k].change <= page.next {
        var i :| 0 <= i < n && list[..n][i] == k;
        assert i < n - 1 ==> s.entries[list[i]].change < s.entries[list[n - 1]].change;
      }
    }
    ExportsAreOrdered(s, list[..n], start, page.next);
  }

  // ---- The two machines

  /** Whatever the neighbour stores up to the cursor is matched or exceeded here, unless some author
      was unknown. */
  ghost predicate Covers(pub: Store, entries: Entries, p: Progress) {
    p.epoch == pub.epoch ==>
      && p.cursor <= pub.clock && p.high <= pub.clock
      && (p.unknown
          || forall k :: k in pub.entries && pub.entries[k].change <= p.cursor ==>
               k in entries && RecordAtMost(pub.entries[k].record, entries[k].record))
  }

  datatype Query = Query(asked: Progress, trust: set<(string, PublicKey)>)
  datatype Answer = Answer(query: Query, page: Page)

  /** The neighbour, this machine, the questions sent and the answers that may still arrive. */
  datatype Sync = Sync(pub: Machine, rep: Machine, queries: set<Query>, answers: set<Answer>)

  datatype Move =
    | Publish(act: Act)
    | Other(act: Act)
    | AskPage
    | AnswerPage(query: Query)
    | ApplyPage(answer: Answer, save: Save)

  ghost predicate Moves(w: Widths, size: Sizes, peer: string, a: Sync, m: Move, b: Sync) {
    match m
    case Publish(act) => Acts(w, a.pub, act, b.pub) && b == a.(pub := b.pub)
    case Other(act) =>
      && (act.Perform? && act.edit.Learn? ==> act.edit.peer != peer)
      && Acts(w, a.rep, act, b.rep) && b == a.(rep := b.rep)
    case AskPage =>
      && !a.rep.poisoned
      && b == a.(queries := a.queries + {Query(ProgressOf(a.rep.mem, peer), a.rep.mem.trust)})
    case AnswerPage(q) =>
      && q in a.queries
      && var page := MakePage(a.pub.mem, size, q.asked.epoch, q.asked.cursor, AskedHigh(q.asked));
         page.Ok? && b == a.(answers := a.answers + {Answer(q, page.value)})
    case ApplyPage(x, save) =>
      && x in a.answers && Accepts(x.query.asked, x.page)
      && StillCurrent(a.rep.mem, peer, x.query.asked, x.query.trust) && Changes(x.query.asked, x.page)
      && Acts(w, a.rep, Perform(Learn(peer, x.query.asked, x.page), save), b.rep) && b == a.(rep := b.rep)
  }

  ghost predicate AnswerOk(pub: Store, x: Answer) {
    x.page.epoch == pub.epoch ==>
      && x.page.next <= x.page.high <= pub.clock
      && Shows(pub.entries, if x.page.reset then 0 else x.query.asked.cursor, x.page)
  }

  ghost predicate SyncOk(peer: string, a: Sync) {
    && Steady(a.pub) && a.pub.mem.epoch != "" && Steady(a.rep)
    && Covers(a.pub.mem, a.rep.mem.entries, ProgressOf(a.rep.mem, peer))
    && Covers(a.pub.mem, a.rep.disk.entries, ProgressOf(a.rep.disk, peer))
    && (forall q :: q in a.queries ==> Covers(a.pub.mem, a.rep.mem.entries, q.asked))
    && (forall x :: x in a.answers ==> AnswerOk(a.pub.mem, x) && Covers(a.pub.mem, a.rep.mem.entries, x.query.asked))
  }

  // ---- Nothing learned is lost

  lemma CoversStays(pub: Store, pub': Store, entries: Entries, entries': Entries, p: Progress)
    requires Covers(pub, entries, p) && Advances(pub, pub')
    requires forall k :: k in entries ==> k in entries' && RecordAtMost(entries[k].record, entries'[k].record)
    ensures Covers(pub', entries', p)
  {
    if p.epoch == pub'.epoch {
      forall k | !p.unknown && k in pub'.entries && pub'.entries[k].change <= p.cursor
        ensures k in entries' && RecordAtMost(pub'.entries[k].record, entries'[k].record)
      {
        assert k in pub.entries && SamePlace(pub.entries[k], pub'.entries[k]);
      }
    }
  }

  lemma AnswerStays(pub: Store, pub': Store, x: Answer)
    requires AnswerOk(pub, x) && Advances(pub, pub')
    ensures AnswerOk(pub', x)
  {
    if x.page.epoch == pub'.epoch {
      var start := if x.page.reset then 0 else x.query.asked.cursor;
      forall k | k in pub'.entries && start < pub'.entries[k].change <= x.page.next
        ensures exists i :: 0 <= i < |x.page.entries| && x.page.entries[i].record == pub'.entries[k].record
      {
        assert k in pub.entries && SamePlace(pub.entries[k], pub'.entries[k]);
      }
    }
  }

  lemma PublishKeeps(w: Widths, peer: string, a: Sync, act: Act, b: Sync)
    requires SyncOk(peer, a) && Acts(w, a.pub, act, b.pub) && b == a.(pub := b.pub)
    ensures SyncOk(peer, b)
  {
    ActKeepsSteady(w, a.pub, act, b.pub);
    PublisherMoves(peer, a, b);
  }

  lemma QueriesStay(p: Store, p': Store, entries: Entries, queries: set<Query>)
    requires Advances(p, p') && forall q :: q in queries ==> Covers(p, entries, q.asked)
    ensures forall q :: q in queries ==> Covers(p', entries, q.asked)
  {
    forall q | q in queries ensures Covers(p', entries, q.asked) {
      CoversStays(p, p', entries, entries, q.asked);
    }
  }

  lemma AnswersStay(p: Store, p': Store, entries: Entries, answers: set<Answer>)
    requires Advances(p, p') && forall x :: x in answers ==> AnswerOk(p, x) && Covers(p, entries, x.query.asked)
    ensures forall x :: x in answers ==> AnswerOk(p', x) && Covers(p', entries, x.query.asked)
  {
    forall x | x in answers ensures AnswerOk(p', x) && Covers(p', entries, x.query.asked) {
      CoversStays(p, p', entries, entries, x.query.asked);
      AnswerStays(p, p', x);
    }
  }

  lemma PublisherMoves(peer: string, a: Sync, b: Sync)
    requires SyncOk(peer, a) && b == a.(pub := b.pub) && Steady(b.pub) && Advances(a.pub.mem, b.pub.mem)
    ensures SyncOk(peer, b)
  {
    var p, p' := a.pub.mem, b.pub.mem;
    CoversStays(p, p', a.rep.mem.entries, a.rep.mem.entries, ProgressOf(a.rep.mem, peer));
    CoversStays(p, p', a.rep.disk.entries, a.rep.disk.entries, ProgressOf(a.rep.disk, peer));
    QueriesStay(p, p', a.rep.mem.entries, a.queries);
    AnswersStay(p, p', a.rep.mem.entries, a.answers);
  }

  /** The replica's memory and file may rise as long as each new progress is covered. */
  lemma ReplicaMoves(peer: string, a: Sync, b: Sync)
    requires SyncOk(peer, a) && b == a.(rep := b.rep) && Steady(b.rep) && Advances(a.rep.mem, b.rep.mem)
    requires Covers(a.pub.mem, b.rep.mem.entries, ProgressOf(b.rep.mem, peer))
    requires Covers(a.pub.mem, b.rep.disk.entries, ProgressOf(b.rep.disk, peer))
    ensures SyncOk(peer, b)
  {
    AdvancesReflexive(a.pub.mem);
    forall q | q in a.queries ensures Covers(a.pub.mem, b.rep.mem.entries, q.asked) {
      CoversStays(a.pub.mem, a.pub.mem, a.rep.mem.entries, b.rep.mem.entries, q.asked);
    }
    forall x | x in a.answers ensures Covers(a.pub.mem, b.rep.mem.entries, x.query.asked) {
      CoversStays(a.pub.mem, a.pub.mem, a.rep.mem.entries, b.rep.mem.entries, x.query.asked);
    }
  }

  // ---- Learning a page

  ghost predicate Reached(r: Record, entries: Entries) {
    r.certificate.invocation in entries && RecordAtMost(r, entries[r.certificate.invocation].record)
  }

  ghost predicate AllReached(items: seq<Published>, entries: Entries) {
    forall i :: 0 <= i < |items| ==> Reached(items[i].record, entries)
  }

  lemma {:induction false} LearnAllReaches(s: Store, entries: seq<Published>, unknown: bool, t: Store, unknown': bool)
    requires Sound(s) && LearnAll(s, entries, unknown) == Ok((t, unknown'))
    ensures Advances(s, t) && Sound(t)
    ensures unknown ==> unknown'
    ensures unknown' || AllReached(entries, t.entries)
    decreases |entries|
  {
    if entries == [] {
      AdvancesReflexive(s);
    } else if AuthorsKnown(s, entries[0].record.certificate) {
      IngestAdvances(s, entries[0]);
      var u := Ingest(s, entries[0]).value;
      LearnAllReaches(u, entries[1..], unknown, t, unknown');
      AdvancesTransitive(s, u, t);
      FirstReached(entries, u, t, unknown');
    } else {
      LearnAllReaches(s, entries[1..], true, t, unknown');
    }
  }

  lemma FirstReached(items: seq<Published>, u: Store, t: Store, unknown: bool)
    requires items != [] && Reached(items[0].record, u.entries) && Advances(u, t)
    requires unknown || AllReached(items[1..], t.entries)
    ensures unknown || AllReached(items, t.entries)
  {
    assert forall i :: 0 < i < |items| ==> items[i] == items[1..][i - 1];
  }

  lemma PageCovers(pub: Store, entries: Entries, entries': Entries, x: Answer, p: Progress)
    requires SoundEntries(pub.clock, pub.entries)
    requires AnswerOk(pub, x) && Accepts(x.query.asked, x.page) && Covers(pub, entries, x.query.asked)
    requires forall k :: k in entries ==> k in entries' && RecordAtMost(entries[k].record, entries'[k].record)
    requires p.epoch == x.page.epoch && p.cursor == x.page.next && p.high == x.page.high
    requires !x.page.reset && x.query.asked.unknown ==> p.unknown
    requires p.unknown || AllReached(x.page.entries, entries')
    ensures Covers(pub, entries', p)
  {
    if p.epoch == pub.epoch && !p.unknown {
      forall k | k in pub.entries && pub.entries[k].change <= p.cursor
        ensures k in entries' && RecordAtMost(pub.entries[k].record, entries'[k].record)
      {
        var start := if x.page.reset then 0 else x.query.asked.cursor;
        if start < pub.entries[k].change {
          var i :| 0 <= i < |x.page.entries| && x.page.entries[i].record == pub.entries[k].record;
          assert Reached(x.page.entries[i].record, entries');
        }
      }
    }
  }

  lemma LearnedProgress(s: Store, peer: string, asked: Progress, page: Page, e: Store)
    requires GoodStore(s) && LearnPage(s, peer, asked, page) == Ok(e)
    ensures var p := ProgressOf(e, peer);
      && p == Progress(page.epoch, page.next, page.high, page.complete, p.unknown)
      && (!page.reset && asked.unknown ==> p.unknown)
      && (p.unknown || AllReached(page.entries, e.entries))
  {
    var learned := LearnAll(s, page.entries, !page.reset && asked.unknown).value;
    LearnAllReaches(s, page.entries, !page.reset && asked.unknown, learned.0, learned.1);
  }

  /** Publishing, normalizing and evicting keep the progress, unless the trusted peers changed. */
  lemma SavedProgress(w: Widths, e: Store, s: Store, t: Store)
    requires GoodStore(s) && GoodEdit(s, e) && Commit(w, e, s) == Ok(t)
    ensures t.progress == WithTrust(e).progress
  {
    var r, n := CommitStages(w, e, s, t);
    Update.PublishKeeps(e, s, r);
    NormalizeKeeps(r, n);
    EvictKeeps(w, n, t);
  }

  lemma LearnCommitted(w: Widths, s: Store, peer: string, asked: Progress, page: Page, t: Store)
    requires GoodStore(s) && Committed(w, s, Learn(peer, asked, page), t)
    ensures var p := ProgressOf(t, peer);
      && p == Progress(page.epoch, page.next, page.high, page.complete, p.unknown)
      && (!page.reset && asked.unknown ==> p.unknown)
      && (p.unknown || AllReached(page.entries, t.entries))
  {
    var e := LearnPage(s, peer, asked, page).value;
    LearnIsGood(s, peer, asked, page, e);
    NothingToPublish(s, e);
    LearnedProgress(s, peer, asked, page, e);
    SavedProgress(w, e, s, t);
    var r, n := CommitStages(w, e, s, t);
    SavedRecords(w, e, s, r, n, t);
    assert forall i :: 0 <= i < |page.entries| && Reached(page.entries[i].record, e.entries) ==>
      Reached(page.entries[i].record, t.entries);
  }

  // ---- Every move

  lemma EditProgress(s: Store, edit: Edit, e: Store, peer: string)
    requires Apply(s, edit) == Ok(e) && GoodStore(s) && !(edit.Learn? && edit.peer == peer)
    ensures ProgressOf(e, peer) == ProgressOf(s, peer)
  {
    match edit
    case Learn(other, asked, page) => LearnElsewhere(s, other, asked, page, e, peer);
    case Reply(from, p) => ReplyProgress(s, from, p, e);
    case Submit(c, now, permit, id) => SubmitProgress(s, c, now, permit, id, SubmitEdit(s, c, now, permit, id).value);
    case Discard(keep) => DiscardProgress(s, keep, e);
    case _ => OtherFrame(s, edit, e);
  }

  lemma LearnElsewhere(s: Store, other: string, asked: Progress, page: Page, e: Store, peer: string)
    requires GoodStore(s) && LearnPage(s, other, asked, page) == Ok(e) && peer != other
    ensures ProgressOf(e, peer) == ProgressOf(s, peer)
  {
    LearnAllAdvances(s, page.entries, !page.reset && asked.unknown);
  }

  lemma ReplyProgress(s: Store, from: string, p: Published, e: Store)
    requires AcceptRunnerReply(s, from, p) == Ok(e)
    ensures e.progress == s.progress
  {
    ReplyShape(s, from, p);
    if e != s {
      IngestFrame(s, p);
    }
  }

  lemma SubmitProgress(s: Store, c: Call, now: Now, permit: bool, id: string, a: Accepted)
    requires c.argv != [] && SubmitEdit(s, c, now, permit, id) == Ok(a)
    ensures a.store.progress == s.progress
  {
    var t := SubmitShape(s, c, now, permit, id, a);
  }

  lemma DiscardProgress(s: Store, keep: nat, e: Store)
    requires Storage.Prune(s, keep) == Ok(e)
    ensures e.progress == s.progress
  {
    PruneDropsOutput(s, keep, e);
  }

  lemma CommittedProgress(w: Widths, s: Store, edit: Edit, t: Store, peer: string)
    requires GoodStore(s) && Committed(w, s, edit, t) && !(edit.Learn? && edit.peer == peer)
    ensures ProgressOf(t, peer) in {ProgressOf(s, peer), NO_PROGRESS}
  {
    var e := Apply(s, edit).value;
    EveryEditIsGood(s, edit, e);
    EditProgress(s, edit, e, peer);
    SavedProgress(w, e, s, t);
  }

  lemma AfterSaveCovers(pub: Store, peer: string, m: Machine, t: Store, save: Save)
    requires Covers(pub, m.mem.entries, ProgressOf(m.mem, peer))
    requires Covers(pub, m.disk.entries, ProgressOf(m.disk, peer))
    requires Covers(pub, t.entries, ProgressOf(t, peer))
    ensures var m' := AfterSave(m, t, save);
      Covers(pub, m'.mem.entries, ProgressOf(m'.mem, peer)) && Covers(pub, m'.disk.entries, ProgressOf(m'.disk, peer))
  {
  }

  lemma CommitCovers(pub: Store, peer: string, s: Store, t: Store)
    requires pub.epoch != "" && Covers(pub, s.entries, ProgressOf(s, peer)) && Advances(s, t)
    requires ProgressOf(t, peer) in {ProgressOf(s, peer), NO_PROGRESS}
    ensures Covers(pub, t.entries, ProgressOf(t, peer))
  {
    AdvancesReflexive(pub);
    CoversStays(pub, pub, s.entries, t.entries, ProgressOf(s, peer));
  }

  lemma OtherPerformKeeps(w: Widths, peer: string, a: Sync, edit: Edit, save: Save, b: Sync)
    requires SyncOk(peer, a) && Fair(a.rep.mem, edit) && !(edit.Learn? && edit.peer == peer)
    requires b == a.(rep := UpdateWith(w, a.rep, Apply(a.rep.mem, edit), save).0)
    ensures SyncOk(peer, b)
  {
    var t := UpdateCommits(w, a.rep, edit, save);
    if b.rep != a.rep {
      PerformKeepsSteady(w, a.rep, edit, save, b.rep);
      CommittedKeeps(w, a.rep.mem, edit, t);
      CommittedProgress(w, a.rep.mem, edit, t, peer);
      CommitCovers(a.pub.mem, peer, a.rep.mem, t);
      AfterSaveCovers(a.pub.mem, peer, a.rep, t, save);
      ReplicaMoves(peer, a, b);
    }
  }

  lemma MarkCovers(pub: Store, peer: string, s: Store, i: nat, reason: string, t: Store)
    requires Marked(s, i, reason, t) && Covers(pub, s.entries, ProgressOf(s, peer))
    ensures Covers(pub, t.entries, ProgressOf(t, peer))
  {
  }

  lemma MissCovers(pub: Store, peer: string, s: Store, other: string)
    requires pub.epoch != "" && Covers(pub, s.entries, ProgressOf(s, peer))
    ensures Covers(pub, s.entries, ProgressOf(WithoutComplete(s, other), peer))
  {
  }

  lemma OtherKeeps(w: Widths, peer: string, a: Sync, act: Act, b: Sync)
    requires SyncOk(peer, a) && (act.Perform? && act.edit.Learn? ==> act.edit.peer != peer)
    requires Acts(w, a.rep, act, b.rep) && b == a.(rep := b.rep)
    ensures SyncOk(peer, b)
  {
    match act
    case Perform(edit, save) => OtherPerformKeeps(w, peer, a, edit, save, b);
    case Mark(i, reason) =>
      ActKeepsSteady(w, a.rep, act, b.rep);
      MarkCovers(a.pub.mem, peer, a.rep.mem, i, reason, b.rep.mem);
      ReplicaMoves(peer, a, b);
    case Miss(other) =>
      ActKeepsSteady(w, a.rep, act, b.rep);
      MissCovers(a.pub.mem, peer, a.rep.mem, other);
      ReplicaMoves(peer, a, b);
    case _ =>
      ActKeepsSteady(w, a.rep, act, b.rep);
      ReplicaMoves(peer, a, b);
  }

  lemma ApplyKeeps(w: Widths, peer: string, a: Sync, x: Answer, save: Save, b: Sync)
    requires SyncOk(peer, a) && x in a.answers && Accepts(x.query.asked, x.page)
    requires b == a.(rep := UpdateWith(w, a.rep, Apply(a.rep.mem, Learn(peer, x.query.asked, x.page)), save).0)
    ensures SyncOk(peer, b)
  {
    var edit := Learn(peer, x.query.asked, x.page);
    var t := UpdateCommits(w, a.rep, edit, save);
    if b.rep != a.rep {
      PerformKeepsSteady(w, a.rep, edit, save, b.rep);
      CommittedKeeps(w, a.rep.mem, edit, t);
      LearnCommitted(w, a.rep.mem, peer, x.query.asked, x.page, t);
      PageCovers(a.pub.mem, a.rep.mem.entries, t.entries, x, ProgressOf(t, peer));
      AfterSaveCovers(a.pub.mem, peer, a.rep, t, save);
      ReplicaMoves(peer, a, b);
    }
  }

  lemma AnswerKeeps(size: Sizes, peer: string, a: Sync, q: Query, page: Page, b: Sync)
    requires SyncOk(peer, a) && q in a.queries && b == a.(answers := a.answers + {Answer(q, page)})
    requires MakePage(a.pub.mem, size, q.asked.epoch, q.asked.cursor, AskedHigh(q.asked)) == Ok(page)
    ensures SyncOk(peer, b)
  {
    PageIsSound(a.pub.mem, size, q.asked, page);
    assert AnswerOk(a.pub.mem, Answer(q, page));
    NewAnswer(peer, a, Answer(q, page), b);
  }

  lemma NewAnswer(peer: string, a: Sync, x: Answer, b: Sync)
    requires SyncOk(peer, a) && x.query in a.queries && b == a.(answers := a.answers + {x}) && AnswerOk(a.pub.mem, x)
    ensures SyncOk(peer, b)
  {
  }

  lemma MoveKeeps(w: Widths, size: Sizes, peer: string, a: Sync, m: Move, b: Sync)
    requires SyncOk(peer, a) && Moves(w, size, peer, a, m, b)
    ensures SyncOk(peer, b)
  {
    match m
    case Publish(act) => PublishKeeps(w, peer, a, act, b);
    case Other(act) => OtherKeeps(w, peer, a, act, b);
    case AskPage =>
    case AnswerPage(q) =>
      var page := MakePage(a.pub.mem, size, q.asked.epoch, q.asked.cursor, AskedHigh(q.asked)).value;
      AnswerKeeps(size, peer, a, q, page, b);
    case ApplyPage(x, save) => ApplyKeeps(w, peer, a, x, save, b);
  }

  ghost predicate SyncInit(peer: string, a: Sync) {
    && Steady(a.pub) && a.pub.mem.epoch != "" && Steady(a.rep) && a.queries == {} && a.answers == {}
    && ProgressOf(a.rep.mem, peer) == ProgressOf(a.rep.disk, peer) == NO_PROGRESS
  }

  ghost predicate SyncRun(w: Widths, size: Sizes, peer: string, states: seq<Sync>, moves: seq<Move>) {
    && |states| == |moves| + 1 && SyncInit(peer, states[0])
    && forall i {:trigger moves[i]} :: 0 <= i < |moves| ==> Moves(w, size, peer, states[i], moves[i], states[i + 1])
  }

  lemma StartsSync(peer: string, a: Sync)
    requires SyncInit(peer, a)
    ensures SyncOk(peer, a)
  {
  }

  lemma EveryMoveKeeps(w: Widths, size: Sizes, peer: string)
    ensures forall a, m, b :: SyncOk(peer, a) && Moves(w, size, peer, a, m, b) ==> SyncOk(peer, b)
  {
    forall a, m, b | SyncOk(peer, a) && Moves(w, size, peer, a, m, b)
      ensures SyncOk(peer, b)
    {
      MoveKeeps(w, size, peer, a, m, b);
    }
  }

  lemma RunsKeepSync(w: Widths, size: Sizes, peer: string, states: seq<Sync>, moves: seq<Move>, i: nat)
    requires SyncRun(w, size, peer, states, moves) && i < |states|
    ensures SyncOk(peer, states[i])
  {
    StartsSync(peer, states[0]);
    EveryMoveKeeps(w, size, peer);
    for n := 0 to i
      invariant SyncOk(peer, states[n])
    {
      var m := moves[n];
    }
  }

  /** Under any interleaving of updates on either side, questions, late, lost or repeated answers,
      crashes and saves with an unknown result: what the neighbour holds up to the cursor is matched
      or exceeded by the replica in both fact slots, or the scan says an author was unknown. */
  lemma ScanMissesNothing(w: Widths, size: Sizes, peer: string, states: seq<Sync>, moves: seq<Move>, i: nat,
                          k: Invocation)
    requires SyncRun(w, size, peer, states, moves) && i < |states|
    requires var pub, p := states[i].pub.mem, ProgressOf(states[i].rep.mem, peer);
      p.epoch == pub.epoch && !p.unknown && k in pub.entries && pub.entries[k].change <= p.cursor
    ensures k in states[i].rep.mem.entries
    ensures RecordAtMost(states[i].pub.mem.entries[k].record, states[i].rep.mem.entries[k].record)
  {
    RunsKeepSync(w, size, peer, states, moves, i);
  }

  // ---- A scan ends

  /** Within one scan the boundary does not move, and each incomplete page gets closer to it. */
  lemma PageStep(s: Store, size: Sizes, asked: Progress, page: Page)
    requires SoundEntries(s.clock, s.entries) && s.epoch == asked.epoch != ""
    requires MakePage(s, size, asked.epoch, asked.cursor, AskedHigh(asked)) == Ok(page)
    requires asked.cursor <= s.clock && asked.high <= s.clock
    ensures !page.reset && page.next <= page.high && page.epoch == asked.epoch
    ensures !asked.complete ==> page.high == asked.high
    ensures !page.complete ==> asked.cursor < page.next
  {
    PageIsSound(s, size, asked, page);
    var start, n := PageShape(s, size, asked.epoch, asked.cursor, AskedHigh(asked), page);
  }

  /** An answer that goes on with the scan it was asked in. */
  ghost predicate AnswerFits(x: Answer) {
    x.query.asked.epoch == x.page.epoch ==>
      && !x.page.reset
      && (!x.query.asked.complete ==> x.page.high == x.query.asked.high)
      && (!x.page.complete ==> x.query.asked.cursor < x.page.next)
  }

  predicate SamePoint(p: Progress, q: Progress) {
    p.epoch == q.epoch && p.cursor == q.cursor && p.high == q.high
  }

  ghost predicate SyncFits(peer: string, a: Sync) {
    var mem, disk := ProgressOf(a.rep.mem, peer), ProgressOf(a.rep.disk, peer);
    && (forall x :: x in a.answers ==> AnswerFits(x))
    && mem.cursor <= mem.high && disk.cursor <= disk.high && (!a.rep.poisoned ==> SamePoint(mem, disk))
  }

  /** What an update by this machine leaves of the progress in memory and in the file. */
  ghost predicate Settles(peer: string, m: Machine, t: Progress, m': Machine) {
    || (ProgressOf(m'.mem, peer) == ProgressOf(m'.disk, peer) == t && !m'.poisoned)
    || (m'.mem == m.mem && m'.poisoned && ProgressOf(m'.disk, peer) in {t, ProgressOf(m.disk, peer)})
  }

  lemma OtherSettles(w: Widths, peer: string, m: Machine, act: Act, m': Machine) returns (t: Progress)
    requires Steady(m) && Acts(w, m, act, m') && (act.Perform? && act.edit.Learn? ==> act.edit.peer != peer)
    ensures t == NO_PROGRESS || SamePoint(t, ProgressOf(m.mem, peer))
         || (act.Restart? && t == ProgressOf(m.disk, peer))
    ensures Settles(peer, m, t, m')
         || (m'.disk == m.disk && SamePoint(ProgressOf(m.mem, peer), ProgressOf(m'.mem, peer))
             && m'.poisoned == m.poisoned)
  {
    t := ProgressOf(m.mem, peer);
    match act
    case Perform(edit, save) =>
      var u := UpdateCommits(w, m, edit, save);
      if m' != m {
        CommittedProgress(w, m.mem, edit, u, peer);
        t := ProgressOf(u, peer);
      }
    case Restart => t := ProgressOf(m.disk, peer);
    case _ =>
  }

  lemma ApplySettles(w: Widths, peer: string, a: Sync, x: Answer, save: Save, b: Sync) returns (t: Progress)
    requires Steady(a.rep) && Acts(w, a.rep, Perform(Learn(peer, x.query.asked, x.page), save), b.rep)
    ensures SamePoint(t, Progress(x.page.epoch, x.page.next, x.page.high, false, false))
    ensures t.complete == x.page.complete
    ensures b.rep == a.rep || Settles(peer, a.rep, t, b.rep)
  {
    var edit := Learn(peer, x.query.asked, x.page);
    var u := UpdateCommits(w, a.rep, edit, save);
    t := Progress(x.page.epoch, x.page.next, x.page.high, x.page.complete, false);
    if b.rep != a.rep {
      LearnCommitted(w, a.rep.mem, peer, x.query.asked, x.page, u);
      t := ProgressOf(u, peer);
    }
  }

  lemma AnswerIsFit(size: Sizes, a: Sync, peer: string, q: Query, page: Page)
    requires SyncOk(peer, a) && q in a.queries
    requires MakePage(a.pub.mem, size, q.asked.epoch, q.asked.cursor, AskedHigh(q.asked)) == Ok(page)
    ensures AnswerFits(Answer(q, page))
  {
    PageIsSound(a.pub.mem, size, q.asked, page);
    if q.asked.epoch == page.epoch {
      PageStep(a.pub.mem, size, q.asked, page);
    }
  }

  lemma OtherFits(w: Widths, peer: string, a: Sync, act: Act, b: Sync)
    requires Steady(a.rep) && SyncFits(peer, a) && (act.Perform? && act.edit.Learn? ==> act.edit.peer != peer)
    requires Acts(w, a.rep, act, b.rep) && b == a.(rep := b.rep)
    ensures SyncFits(peer, b)
  {
    var t := OtherSettles(w, peer, a.rep, act, b.rep);
  }

  lemma ApplyFits(w: Widths, peer: string, a: Sync, x: Answer, save: Save, b: Sync)
    requires Steady(a.rep) && SyncFits(peer, a) && Accepts(x.query.asked, x.page) && b == a.(rep := b.rep)
    requires Acts(w, a.rep, Perform(Learn(peer, x.query.asked, x.page), save), b.rep)
    ensures SyncFits(peer, b)
  {
    var t := ApplySettles(w, peer, a, x, save, b);
  }

  lemma NewAnswerFits(peer: string, a: Sync, x: Answer, b: Sync)
    requires SyncFits(peer, a) && AnswerFits(x) && b == a.(answers := a.answers + {x})
    ensures SyncFits(peer, b)
  {
  }

  lemma MoveFits(w: Widths, size: Sizes, peer: string, a: Sync, m: Move, b: Sync)
    requires SyncOk(peer, a) && SyncFits(peer, a) && Moves(w, size, peer, a, m, b)
    ensures SyncFits(peer, b)
  {
    match m
    case Other(act) => OtherFits(w, peer, a, act, b);
    case AnswerPage(q) =>
      var page := MakePage(a.pub.mem, size, q.asked.epoch, q.asked.cursor, AskedHigh(q.asked)).value;
      AnswerIsFit(size, a, peer, q, page);
      NewAnswerFits(peer, a, Answer(q, page), b);
    case ApplyPage(x, save) => ApplyFits(w, peer, a, x, save, b);
    case Publish(_) => assert b.rep == a.rep && b.answers == a.answers;
    case AskPage => assert b.rep == a.rep && b.answers == a.answers;
  }

  lemma EveryMoveFits(w: Widths, size: Sizes, peer: string)
    ensures forall a, m, b :: SyncOk(peer, a) && SyncFits(peer, a) && Moves(w, size, peer, a, m, b) ==>
      SyncFits(peer, b)
  {
    forall a, m, b | SyncOk(peer, a) && SyncFits(peer, a) && Moves(w, size, peer, a, m, b) ensures SyncFits(peer, b) {
      MoveFits(w, size, peer, a, m, b);
    }
  }

  lemma RunsFit(w: Widths, size: Sizes, peer: string, states: seq<Sync>, moves: seq<Move>, i: nat)
    requires SyncRun(w, size, peer, states, moves) && i < |states|
    ensures SyncOk(peer, states[i]) && SyncFits(peer, states[i])
  {
    StartsSync(peer, states[0]);
    EveryMoveKeeps(w, size, peer);
    EveryMoveFits(w, size, peer);
    for n := 0 to i
      invariant SyncOk(peer, states[n]) && SyncFits(peer, states[n])
    {
      var m := moves[n];
    }
  }

  /** The scan that p0 belongs to is still going on; at least `taken` more steps have been made. */
  ghost predicate Along(peer: string, p0: Progress, taken: nat, a: Sync) {
    var mem, disk := ProgressOf(a.rep.mem, peer), ProgressOf(a.rep.disk, peer);
    && mem.epoch == p0.epoch && mem.high == p0.high && p0.cursor + taken <= mem.cursor
    && (disk.epoch == p0.epoch && !disk.complete ==> disk.high == p0.high && mem.cursor <= disk.cursor)
  }

  /** Memory took the page. */
  predicate Takes(a: Sync, m: Move, b: Sync) {
    m.ApplyPage? && b.rep.mem != a.rep.mem
  }

  /** How many pages memory took between two states. */
  function Taken(states: seq<Sync>, moves: seq<Move>, i: nat, j: nat): nat
    requires |states| == |moves| + 1 && i <= j < |states|
    decreases j
  {
    if i == j then 0
    else Taken(states, moves, i, j - 1) + if Takes(states[j - 1], moves[j - 1], states[j]) then 1 else 0
  }

  /** The neighbour's progress in memory says that the scan is not complete. */
  predicate Scanning(peer: string, p0: Progress, a: Sync) {
    ProgressOf(a.rep.mem, peer).epoch == p0.epoch && !ProgressOf(a.rep.mem, peer).complete
  }

  lemma MoveAlong(w: Widths, size: Sizes, peer: string, p0: Progress, taken: nat, a: Sync, m: Move, b: Sync)
    requires SyncOk(peer, a) && SyncFits(peer, a) && Moves(w, size, peer, a, m, b) && p0.epoch != ""
    requires Along(peer, p0, taken, a) && Scanning(peer, p0, a) && Scanning(peer, p0, b)
    requires m.ApplyPage? ==> !m.answer.query.asked.complete
    ensures Along(peer, p0, if Takes(a, m, b) then taken + 1 else taken, b)
  {
    match m
    case Other(act) => var t := OtherSettles(w, peer, a.rep, act, b.rep);
    case ApplyPage(x, save) =>
      var t := ApplySettles(w, peer, a, x, save, b);
      assert AnswerFits(x);
    case _ =>
  }

  lemma StepAlong(w: Widths, size: Sizes, peer: string, states: seq<Sync>, moves: seq<Move>, i: nat, n: nat,
                  p0: Progress)
    requires SyncRun(w, size, peer, states, moves) && i <= n < |moves| && p0.epoch != ""
    requires Along(peer, p0, Taken(states, moves, i, n), states[n])
    requires Scanning(peer, p0, states[n]) && Scanning(peer, p0, states[n + 1])
    requires moves[n].ApplyPage? ==> !moves[n].answer.query.asked.complete
    ensures Along(peer, p0, Taken(states, moves, i, n + 1), states[n + 1])
  {
    RunsFit(w, size, peer, states, moves, n);
    MoveAlong(w, size, peer, p0, Taken(states, moves, i, n), states[n], moves[n], states[n + 1]);
  }

  /** In every run, however much the neighbour publishes meanwhile and whatever crashes and late answers fall in
      between: while one scan goes on its boundary stays where it is, and memory takes at most as many pages as were
      left from its cursor to there. */
  lemma ScanEnds(w: Widths, size: Sizes, peer: string, states: seq<Sync>, moves: seq<Move>, i: nat, j: nat)
    requires SyncRun(w, size, peer, states, moves) && i <= j < |states| && !states[i].rep.poisoned
    requires var p0 := ProgressOf(states[i].rep.mem, peer);
      p0.epoch != "" && forall n :: i <= n <= j ==> Scanning(peer, p0, states[n])
    requires forall n {:trigger moves[n]} :: i <= n < j && moves[n].ApplyPage? ==> !moves[n].answer.query.asked.complete
    ensures var p0, p := ProgressOf(states[i].rep.mem, peer), ProgressOf(states[j].rep.mem, peer);
      p.high == p0.high && p0.cursor + Taken(states, moves, i, j) <= p.cursor <= p.high
  {
    var p0 := ProgressOf(states[i].rep.mem, peer);
    RunsFit(w, size, peer, states, moves, i);
    for n := i to j
      invariant Along(peer, p0, Taken(states, moves, i, n), states[n])
    {
      StepAlong(w, size, peer, states, moves, i, n, p0);
    }
    RunsFit(w, size, peer, states, moves, j);
  }

  // ---- Which pages are served and taken

  lemma {:induction false} OrderedFromIff(entries: seq<Published>, previous: nat, next: nat)
    ensures OrderedFrom(entries, previous, next) <==>
      && (forall i :: 0 <= i < |entries| ==> previous < entries[i].change <= next)
      && (forall i, j :: 0 <= i < j < |entries| ==> entries[i].change < entries[j].change)
  {
    if entries != [] {
      var rest := entries[1..];
      OrderedFromIff(rest, entries[0].change, next);
      if OrderedFrom(entries, previous, next) {
        forall i | 0 <= i < |entries| ensures i > 0 ==> entries[i] == rest[i - 1] {
        }
      } else if forall i :: 0 <= i < |entries| ==> previous < entries[i].change <= next {
        forall i | 0 <= i < |rest| ensures rest[i] == entries[i + 1] {
        }
      }
    }
  }

  /** A page is taken exactly if it goes on from the cursor asked about, or starts over, shows at most 16 entries in
      rising order up to where it says it got, and is complete only at its boundary. */
  lemma AcceptsIff(asked: Progress, page: Page)
    ensures Accepts(asked, page) <==>
      var start := if page.reset then 0 else asked.cursor;
      && page.epoch != "" && (page.reset || page.epoch == asked.epoch) && start <= page.next <= page.high
      && (page.complete ==> page.next == page.high) && |page.entries| <= 16
      && (forall i :: 0 <= i < |page.entries| ==> start < page.entries[i].change <= page.next)
      && (forall i, j :: 0 <= i < j < |page.entries| ==> page.entries[i].change < page.entries[j].change)
  {
    OrderedFromIff(page.entries, if page.reset then 0 else asked.cursor, page.next);
  }

  lemma {:induction false} FillServes(s: Store, size: Sizes, list: seq<Invocation>, used: nat, so: Filled)
    requires (forall k :: k in list ==> k in s.entries) && forall k :: k in list ==> size(Export(s, k)) <= PAGE_BYTES
    ensures Fill(s, size, list, used, so).Ok?
    decreases |list|
  {
    if list != [] {
      var p := Export(s, list[0]);
      FillServes(s, size, list[1..], used + size(p), Filled(so.rows + [p], p.change));
    }
  }

  /** As long as no entry alone is longer than a page may be, every question but one about a boundary below its own
      cursor is answered. */
  lemma PageIsServedIff(s: Store, size: Sizes, epoch: string, after: nat, high: Option<nat>)
    requires forall k :: k in s.entries ==> size(Export(s, k)) <= PAGE_BYTES
    ensures MakePage(s, size, epoch, after, high).Ok? <==>
      epoch != s.epoch || after > s.clock || high.None? || high.value > s.clock || after <= high.value
  {
    var start, top := if Resets(s, epoch, after) then 0 else after, Boundary(s, epoch, after, high);
    FillServes(s, size, ByAge(s.entries, InRange(s, start, top)), 0, Filled([], start));
  }

  lemma {:induction false} UnknownIff(s: Store, entries: seq<Published>, unknown: bool)
    requires LearnAll(s, entries, unknown).Ok?
    ensures LearnAll(s, entries, unknown).value.1 <==>
      unknown || exists i :: 0 <= i < |entries| && !AuthorsKnown(s, entries[i].record.certificate)
    decreases |entries|
  {
    if entries != [] {
      var rest := entries[1..];
      var known := AuthorsKnown(s, entries[0].record.certificate);
      var t := if known then Ingest(s, entries[0]).value else s;
      if known {
        IngestFrame(s, entries[0]);
      }
      UnknownIff(t, rest, if known then unknown else true);
      if i :| 0 <= i < |entries| && !AuthorsKnown(s, entries[i].record.certificate) {
        assert i > 0 ==> rest[i - 1] == entries[i];
      }
      forall i | 0 <= i < |rest| ensures rest[i] == entries[i + 1] {
      }
    }
  }

  /** Where a learned page leaves the scan: at the page's own end, remembering whether any author was unknown. */
  lemma PageMovesScan(s: Store, peer: string, asked: Progress, page: Page, t: Store)
    requires LearnPage(s, peer, asked, page) == Ok(t)
    ensures peer in t.progress && t.progress == s.progress[peer := t.progress[peer]]
    ensures var p := t.progress[peer];
      && p.epoch == page.epoch && p.cursor == page.next && p.high == page.high && p.complete == page.complete
      && (p.unknown <==>
            || (asked.unknown && !page.reset)
            || exists i :: 0 <= i < |page.entries| && !AuthorsKnown(s, page.entries[i].record.certificate))
  {
    UnknownIff(s, page.entries, !page.reset && asked.unknown);
    var learned := LearnAll(s, page.entries, !page.reset && asked.unknown).value.0;
    LearnProgressFrame(s, page.entries, !page.reset && asked.unknown);
  }

  lemma {:induction false} LearnProgressFrame(s: Store, entries: seq<Published>, unknown: bool)
    requires LearnAll(s, entries, unknown).Ok?
    ensures LearnAll(s, entries, unknown).value.0.progress == s.progress
    decreases |entries|
  {
    if entries != [] {
      if AuthorsKnown(s, entries[0].record.certificate) {
        IngestFrame(s, entries[0]);
        LearnProgressFrame(Ingest(s, entries[0]).value, entries[1..], unknown);
      } else {
        LearnProgressFrame(s, entries[1..], true);
      }
    }
  }

  /** An answer is applied only while the machines paired and the scan's place are those it was asked with, so within
      an epoch no answer, however late or repeated, moves a scan back. */
  lemma LateAnswersChangeNothing(w: Widths, size: Sizes, peer: string, a: Sync, x: Answer, save: Save, b: Sync)
    requires Moves(w, size, peer, a, ApplyPage(x, save), b)
    ensures a.rep.mem.trust == x.query.trust
    ensures var now := ProgressOf(a.rep.mem, peer);
      && now.epoch == x.query.asked.epoch && now.cursor == x.query.asked.cursor && now.high == x.query.asked.high
      && (!x.page.reset ==> now.epoch == x.page.epoch && now.cursor <= x.page.next)
  {
  }
}
