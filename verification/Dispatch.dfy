/** The fair, bounded dispatcher (`dispatch_pending`, src/job.rs). */
module Dispatch {
  import opened Names

  const DISPATCH: nat := 8

  predicate AtMost(a: string, b: string) {
    a == b || Less(a, b)
  }

  /** `partition_point(|key| key <= cursor)` of a sorted list. */
  function StartIndex(keys: seq<string>, cursor: string): (i: nat)
    ensures i <= |keys|
    ensures forall j :: 0 <= j < i ==> AtMost(keys[j], cursor)
    ensures i < |keys| ==> !AtMost(keys[i], cursor)
  {
    if keys == [] || !AtMost(keys[0], cursor) then 0 else 1 + StartIndex(keys[1..], cursor)
  }

  function Rotated(keys: seq<string>, cursor: string): (list: seq<string>)
    ensures |list| == |keys|
  {
    var i := StartIndex(keys, cursor);
    keys[i..] + keys[..i]
  }

  predicate Due(waits: map<string, nat>, now: nat, key: string) {
    key in waits ==> waits[key] <= now
  }

  predicate Ready(busy: set<string>, waits: map<string, nat>, now: nat, key: string) {
    key !in busy && Due(waits, now, key)
  }

  /** The keys one pass starts: the ready ones in order, while there is room. */
  function Picked(list: seq<string>, busy: set<string>, waits: map<string, nat>, now: nat, room: nat): seq<string> {
    if list == [] || room == 0 then []
    else if Ready(busy, waits, now, list[0]) then [list[0]] + Picked(list[1..], busy, waits, now, room - 1)
    else Picked(list[1..], busy, waits, now, room)
  }

  function LastOr(list: seq<string>, otherwise: string): string {
    if list == [] then otherwise else list[|list| - 1]
  }

  function KeptWaits(waits: map<string, nat>, candidates: seq<string>): map<string, nat> {
    map k | k in waits && k in candidates :: waits[k]
  }

  /** Every started key waits before its next attempt. */
  function Delayed(waits: map<string, nat>, started: seq<string>, until: nat): map<string, nat> {
    if started == [] then waits
    else Delayed(waits, started[..|started| - 1], until)[started[|started| - 1] := until]
  }

  ghost predicate Distinct(list: seq<string>) {
    forall i, j :: 0 <= i < j < |list| ==> list[i] != list[j]
  }

  lemma AscendingIsDistinct(list: seq<string>)
    requires Ascending(list)
    ensures Distinct(list)
  {
    forall i, j | 0 <= i < j < |list| ensures list[i] != list[j] {
      LessIrreflexive(list[i]);
    }
  }

  lemma RotatedIsDistinct(keys: seq<string>, cursor: string)
    requires Distinct(keys)
    ensures Distinct(Rotated(keys, cursor))
  {
  }

  lemma {:induction false} PickedShape(list: seq<string>, busy: set<string>, waits: map<string, nat>, now: nat,
                                       room: nat)
    requires Distinct(list)
    ensures var p := Picked(list, busy, waits, now, room);
      && |p| <= room && Distinct(p)
      && forall k :: k in p ==> k in list && Ready(busy, waits, now, k)
  {
    if list != [] {
      PickedShape(list[1..], busy, waits, now, if room > 0 && Ready(busy, waits, now, list[0]) then room - 1 else room);
      assert forall k :: k in list[1..] ==> k != list[0] && k in list;
    }
  }

  // ---- The loop's state

  class Dispatcher {
    var active: map<nat, string>  // task ID to key
    var nextAttempt: map<string, nat>
    var cursor: string
    var spawned: nat

    /** At most eight tasks, each of another key: as many keys as tasks. */
    ghost predicate Valid()
      reads this
    {
      && |active| <= DISPATCH
      && (forall id :: id in active ==> id < spawned)
      && |active.Values| == |active|
    }

    constructor ()
      ensures Valid() && active == map[] && nextAttempt == map[] && cursor == ""
    {
      active, nextAttempt, cursor, spawned := map[], map[], "", 0;
    }

    /** A task of the join set has ended. */
    method Ended(id: nat)
      requires Valid()
      modifies this`active
      ensures Valid() && active == old(active) - {id}
    {
      WithoutOne(active, id);
      active := active - {id};
    }

    method Spawn(key: string)
      requires Valid() && |active| < DISPATCH && key !in active.Values
      modifies this`active, this`spawned
      ensures Valid() && active == old(active)[old(spawned) := key] && |active| == |old(active)| + 1
      ensures active.Values == old(active).Values + {key}
    {
      assert spawned !in active;
      active, spawned := active[spawned := key], spawned + 1;
      assert active == old(active)[old(spawned) := key];
      assert active.Keys == old(active).Keys + {old(spawned)};
      ValuesPlus(old(active), old(spawned), key);
    }

    /** Starts the key unless it has a task or must wait. */
    method Try(key: string, now: nat, poll: nat) returns (ok: bool)
      requires Valid() && |active| < DISPATCH
      modifies this`active, this`spawned, this`nextAttempt
      ensures Valid() && (ok <==> key !in old(active).Values && Due(old(nextAttempt), now, key))
      ensures active.Values == if ok then old(active).Values + {key} else old(active).Values
      ensures |active| == |old(active)| + if ok then 1 else 0
      ensures nextAttempt == if ok then old(nextAttempt)[key := now + poll] else old(nextAttempt)
    {
      ok := false;
      if key !in active.Values && (key in nextAttempt ==> nextAttempt[key] <= now) {
        Spawn(key);
        nextAttempt := nextAttempt[key := now + poll];
        ok := true;
      }
    }

    method TryNext(list: seq<string>, i: nat, now: nat, poll: nat, started: seq<string>, ghost pass: Pass)
      returns (after: seq<string>)
      requires Valid() && |active| < DISPATCH && i < |list| && |started| < pass.room && now == pass.now
      requires Midway(list, i, pass, now + poll, started, active.Values, nextAttempt)
      modifies this`active, this`spawned, this`nextAttempt
      ensures Valid() && |active| - |after| == |old(active)| - |started|
      ensures Midway(list, i + 1, pass, now + poll, after, active.Values, nextAttempt)
    {
      NextPick(list, i, pass, now + poll, started, active.Values, nextAttempt);
      var ok := Try(list[i], now, poll);
      after := if ok then started + [list[i]] else started;
    }

    /** The loop of one pass. */
    method Sweep(list: seq<string>, now: nat, poll: nat) returns (started: seq<string>)
      requires Valid() && Distinct(list)
      modifies this`active, this`spawned, this`nextAttempt
      ensures Valid()
      ensures started == Picked(list, old(active).Values, old(nextAttempt), now, DISPATCH - |old(active)|)
      ensures active.Values == old(active).Values + Keys(started) && |active| == |old(active)| + |started|
      ensures nextAttempt == Delayed(old(nextAttempt), started, now + poll)
    {
      started := [];
      var i := 0;
      ghost var pass := Pass(active.Values, nextAttempt, now, DISPATCH - |active|);
      while i < |list| && |active| < DISPATCH
        invariant Valid() && |active| == |old(active)| + |started|
        invariant Midway(list, i, pass, now + poll, started, active.Values, nextAttempt)
      {
        started := TryNext(list, i, now, poll, started, pass);
        i := i + 1;
      }
      PickedAll(list, i, pass);
    }

    /** One pass over the sorted candidates, from just after the cursor: it starts each that has no task and need not
        wait, until there are eight tasks, and each started key then waits. */
    method Round(keys: seq<string>, now: nat, poll: nat) returns (started: seq<string>)
      requires Valid() && Ascending(keys)
      modifies this
      ensures Valid()
      ensures Distinct(started) && |active| == |old(active)| + |started| <= DISPATCH
      ensures active.Values == old(active).Values + set k | k in started
      ensures forall k :: k in started ==>
        k in keys && k !in old(active).Values && (k in old(nextAttempt) ==> old(nextAttempt)[k] <= now)
      ensures forall k :: k in keys && k !in old(active).Values && k !in started ==>
        (k in old(nextAttempt) && old(nextAttempt)[k] > now) || |active| == DISPATCH
      ensures forall k :: k in nextAttempt <==> k in started || (k in keys && k in old(nextAttempt))
      ensures forall k :: k in nextAttempt ==>
        nextAttempt[k] == if k in started then now + poll else old(nextAttempt)[k]
      ensures cursor == if started == [] then old(cursor) else started[|started| - 1]
      ensures var turn := Turn(keys, old(active).Values, now, DISPATCH - |old(active)|);
        && started == StartedBy(Loop(old(nextAttempt), old(cursor)), turn)
        && Loop(nextAttempt, cursor) == AfterTurn(Loop(old(nextAttempt), old(cursor)), turn, poll)
    {
      TurnTells(Loop(nextAttempt, cursor), Turn(keys, active.Values, now, DISPATCH - |active|), poll);
      started := Once(keys, now, poll);
      KeysAreAll(started);
    }

    /** Forgets the waits of keys that are candidates no more, and goes through the others. */
    method Once(keys: seq<string>, now: nat, poll: nat) returns (started: seq<string>)
      requires Valid() && Ascending(keys)
      modifies this
      ensures Valid()
      ensures active.Values == old(active).Values + Keys(started) && |active| == |old(active)| + |started|
      ensures var turn := Turn(keys, old(active).Values, now, DISPATCH - |old(active)|);
        && started == StartedBy(Loop(old(nextAttempt), old(cursor)), turn)
        && Loop(nextAttempt, cursor) == AfterTurn(Loop(old(nextAttempt), old(cursor)), turn, poll)
    {
      AscendingIsDistinct(keys);
      RotatedIsDistinct(keys, cursor);
      ghost var before := Loop(nextAttempt, cursor);
      ghost var turn := Turn(keys, active.Values, now, DISPATCH - |active|);
      nextAttempt := KeptWaits(nextAttempt, keys);
      started := Sweep(Rotated(keys, cursor), now, poll);
      TurnIs(before, turn, poll, started);
      if started != [] {
        cursor := started[|started| - 1];
      }
    }
  }

  lemma ValuesPlus(m: map<nat, string>, id: nat, key: string)
    requires id !in m
    ensures m[id := key].Values == m.Values + {key}
  {
    var m' := m[id := key];
    forall k | k in m.Values + {key} ensures k in m'.Values {
      if k in m.Values {
        var x :| x in m && m[x] == k;
        assert m'[x] == k;
      } else {
        assert m'[id] == k;
      }
    }
  }

  function Keys(list: seq<string>): set<string> {
    if list == [] then {} else Keys(list[..|list| - 1]) + {list[|list| - 1]}
  }

  lemma {:induction false} KeysAreElements(list: seq<string>, k: string)
    ensures k in Keys(list) <==> k in list
  {
    if list != [] {
      KeysAreElements(list[..|list| - 1], k);
      assert list == list[..|list| - 1] + [list[|list| - 1]];
    }
  }

  lemma KeysAreAll(list: seq<string>)
    ensures Keys(list) == set k | k in list
  {
    forall k | k in Keys(list) || k in list ensures k in Keys(list) && k in list {
      KeysAreElements(list, k);
    }
  }

  lemma {:induction false} DelayedAt(waits: map<string, nat>, started: seq<string>, until: nat, k: string)
    ensures k in Delayed(waits, started, until) <==> k in waits || k in started
    ensures k in Delayed(waits, started, until) ==>
      Delayed(waits, started, until)[k] == if k in started then until else waits[k]
  {
    if started != [] {
      DelayedAt(waits, started[..|started| - 1], until, k);
      assert started == started[..|started| - 1] + [started[|started| - 1]];
    }
  }

  function PickedFrom(list: seq<string>, pass: Pass): seq<string> {
    Picked(list, pass.busy, pass.waits, pass.now, pass.room)
  }

  lemma PickedOne(key: string, pass: Pass)
    ensures PickedFrom([key], pass)
         == if pass.room > 0 && Ready(pass.busy, pass.waits, pass.now, key) then [key] else []
  {
    assert [key][1..] == [];
    assert Picked([], pass.busy, pass.waits, pass.now, if pass.room > 0 then pass.room - 1 else 0) == [];
    assert Picked([], pass.busy, pass.waits, pass.now, pass.room) == [];
  }

  lemma {:induction false} PickedLonger(list: seq<string>, key: string, pass: Pass)
    ensures PickedFrom(list + [key], pass)
         == var p := PickedFrom(list, pass);
            if |p| < pass.room && Ready(pass.busy, pass.waits, pass.now, key) then p + [key] else p
    decreases |list|
  {
    if list == [] {
      assert list + [key] == [key] && [key][1..] == [] && [key] + [] == [] + [key] == [key];
      PickedOne(key, pass);
    } else {
      assert (list + [key])[1..] == list[1..] + [key];
      if pass.room > 0 {
        var rest := pass.(room := if Ready(pass.busy, pass.waits, pass.now, list[0]) then pass.room - 1 else pass.room);
        PickedLonger(list[1..], key, rest);
      }
    }
  }

  lemma PickedNext(list: seq<string>, i: nat, pass: Pass)
    requires Distinct(list) && i < |list|
    ensures PickedFrom(list[..i + 1], pass)
         == var p := PickedFrom(list[..i], pass);
            if |p| < pass.room && Ready(pass.busy, pass.waits, pass.now, list[i]) then p + [list[i]] else p
    ensures list[i] !in PickedFrom(list[..i], pass)
  {
    assert list[..i + 1] == list[..i] + [list[i]];
    PickedLonger(list[..i], list[i], pass);
    PickedShape(list[..i], pass.busy, pass.waits, pass.now, pass.room);
  }

  lemma {:induction false} PickedAll(list: seq<string>, i: nat, pass: Pass)
    requires i <= |list| && (i == |list| || |PickedFrom(list[..i], pass)| >= pass.room)
    ensures PickedFrom(list[..i], pass) == PickedFrom(list, pass)
    decreases |list| - i
  {
    if i == |list| {
      assert list[..i] == list;
    } else {
      assert list[..i + 1] == list[..i] + [list[i]];
      PickedLonger(list[..i], list[i], pass);
      PickedAll(list, i + 1, pass);
    }
  }

  /** What starting one more key does to the keys with a task and to the waiting times. */
  lemma OneMore(pass: Pass, started: seq<string>, until: nat, key: string)
    ensures pass.busy + Keys(started + [key]) == pass.busy + Keys(started) + {key}
    ensures Delayed(pass.waits, started + [key], until) == Delayed(pass.waits, started, until)[key := until]
    ensures key in Keys(started) <==> key in started
  {
    assert (started + [key])[..|started|] == started;
    KeysAreElements(started, key);
  }

  lemma DueStill(before: map<string, nat>, started: seq<string>, now: nat, until: nat, key: string)
    ensures key !in started ==> (Due(Delayed(before, started, until), now, key) <==> Due(before, now, key))
  {
    DelayedAt(before, started, until, key);
  }

  /** Where a pass is after the first i keys. */
  ghost predicate Midway(list: seq<string>, i: nat, pass: Pass, until: nat, started: seq<string>, busy: set<string>,
                         waits: map<string, nat>)
  {
    && Distinct(list) && i <= |list| && started == PickedFrom(list[..i], pass)
    && busy == pass.busy + Keys(started) && waits == Delayed(pass.waits, started, until)
  }

  /** Whether the next key of the list is started, and where the pass is then. */
  lemma NextPick(list: seq<string>, i: nat, pass: Pass, until: nat, started: seq<string>, busy: set<string>,
                 waits: map<string, nat>)
    requires i < |list| && |started| < pass.room
    requires Midway(list, i, pass, until, started, busy, waits)
    ensures if list[i] !in busy && Due(waits, pass.now, list[i]) then
              Midway(list, i + 1, pass, until, started + [list[i]], busy + {list[i]}, waits[list[i] := until])
            else Midway(list, i + 1, pass, until, started, busy, waits)
  {
    OneMore(pass, started, until, list[i]);
    PickedNext(list, i, pass);
    DueStill(pass.waits, started, pass.now, until, list[i]);
  }

  lemma {:induction false} ValuesAtMost(m: map<nat, string>)
    ensures |m.Values| <= |m|
    decreases |m|
  {
    if m == map[] {
      assert m.Values == {};
    } else {
      var id :| id in m;
      var rest := m - {id};
      assert rest.Keys == m.Keys - {id} && m == rest[id := m[id]];
      ValuesPlus(rest, id, m[id]);
      ValuesAtMost(rest);
    }
  }

  lemma WithoutOne(m: map<nat, string>, id: nat)
    requires |m.Values| == |m|
    ensures |(m - {id}).Values| == |m - {id}| <= |m|
  {
    var rest := m - {id};
    if id in m {
      assert rest.Keys == m.Keys - {id} && m == rest[id := m[id]];
      ValuesPlus(rest, id, m[id]);
      ValuesAtMost(rest);
    } else {
      assert rest == m;
    }
  }

  // ---- One turn of the loop

  /** What one pass depends on besides the list of keys. */
  datatype Pass = Pass(busy: set<string>, waits: map<string, nat>, now: nat, room: nat)

  function StartedIn(keys: seq<string>, cursor: string, pass: Pass): seq<string> {
    Picked(Rotated(keys, cursor), pass.busy, pass.waits, pass.now, pass.room)
  }

  /** What the loop remembers from one turn to the next, and what a turn finds: the candidates, the keys with a task,
      the time and how many tasks may be added. */
  datatype Loop = Loop(waits: map<string, nat>, cursor: string)
  datatype Turn = Turn(keys: seq<string>, busy: set<string>, now: nat, room: nat)

  function StartedBy(l: Loop, turn: Turn): seq<string> {
    StartedIn(turn.keys, l.cursor, Pass(turn.busy, KeptWaits(l.waits, turn.keys), turn.now, turn.room))
  }

  function AfterTurn(l: Loop, turn: Turn, poll: nat): Loop {
    var started := StartedBy(l, turn);
    Loop(Delayed(KeptWaits(l.waits, turn.keys), started, turn.now + poll), LastOr(started, l.cursor))
  }

  lemma TurnIs(l: Loop, turn: Turn, poll: nat, started: seq<string>)
    requires started == Picked(Rotated(turn.keys, l.cursor), turn.busy, KeptWaits(l.waits, turn.keys), turn.now,
                               turn.room)
    ensures started == StartedBy(l, turn)
    ensures AfterTurn(l, turn, poll)
         == Loop(Delayed(KeptWaits(l.waits, turn.keys), started, turn.now + poll),
                 if started == [] then l.cursor else started[|started| - 1])
  {
  }

  lemma RotatedElements(keys: seq<string>, cursor: string, k: string)
    ensures k in Rotated(keys, cursor) <==> k in keys
  {
    var i := StartIndex(keys, cursor);
    assert keys == keys[..i] + keys[i..];
  }

  /** A ready key is passed over only when there is no room left. */
  lemma {:induction false} PickedOrFull(list: seq<string>, pass: Pass, k: string)
    requires k in list && Ready(pass.busy, pass.waits, pass.now, k)
    ensures var p := PickedFrom(list, pass); k in p || |p| == pass.room
  {
    if pass.room > 0 {
      var picks := Ready(pass.busy, pass.waits, pass.now, list[0]);
      if k != list[0] {
        PickedOrFull(list[1..], pass.(room := if picks then pass.room - 1 else pass.room), k);
      }
    }
  }

  /** What one turn starts and what the loop remembers afterwards, key by key. */
  lemma TurnTells(l: Loop, turn: Turn, poll: nat)
    requires Ascending(turn.keys)
    ensures var started, after := StartedBy(l, turn), AfterTurn(l, turn, poll);
      && Distinct(started) && |started| <= turn.room
      && (forall k :: k in started ==> k in turn.keys && k !in turn.busy && (k in l.waits ==> l.waits[k] <= turn.now))
      && (forall k :: k in turn.keys && k !in turn.busy && k !in started && (k in l.waits ==> l.waits[k] <= turn.now)
            ==> |started| == turn.room)
      && (forall k :: k in after.waits <==> k in started || (k in turn.keys && k in l.waits))
      && (forall k :: k in after.waits ==> after.waits[k] == if k in started then turn.now + poll else l.waits[k])
      && after.cursor == (if started == [] then l.cursor else started[|started| - 1])
  {
    AscendingIsDistinct(turn.keys);
    RotatedIsDistinct(turn.keys, l.cursor);
    var pass := Pass(turn.busy, KeptWaits(l.waits, turn.keys), turn.now, turn.room);
    var list, started := Rotated(turn.keys, l.cursor), StartedBy(l, turn);
    PickedShape(list, pass.busy, pass.waits, pass.now, pass.room);
    forall k | k in started ensures k in turn.keys {
      RotatedElements(turn.keys, l.cursor, k);
    }
    forall k | k in turn.keys && Ready(pass.busy, pass.waits, pass.now, k) && k !in started
      ensures |started| == turn.room
    {
      RotatedElements(turn.keys, l.cursor, k);
      PickedOrFull(list, pass, k);
    }
    forall k | true
      ensures var w := AfterTurn(l, turn, poll).waits;
        && (k in w <==> k in started || k in pass.waits)
        && (k in w ==> w[k] == if k in started then turn.now + poll else pass.waits[k])
    {
      DelayedAt(pass.waits, started, turn.now + poll, k);
    }
  }

  // ---- Every run of the loop, whatever becomes of the candidates and of the tasks in between

  ghost predicate Turns(loops: seq<Loop>, turns: seq<Turn>, poll: nat) {
    && |loops| == |turns| + 1 && loops[0] == Loop(map[], "")
    && forall i {:trigger turns[i]} :: 0 <= i < |turns| ==>
         Ascending(turns[i].keys) && loops[i + 1] == AfterTurn(loops[i], turns[i], poll)
  }

  /** The keys that turn n starts. */
  function Starts(loops: seq<Loop>, turns: seq<Turn>, n: nat): seq<string>
    requires n < |turns| <= |loops|
  {
    StartedBy(loops[n], turns[n])
  }

  /** The key is a candidate in every turn after i, up to n. */
  ghost predicate Stays(turns: seq<Turn>, i: nat, n: nat, k: string)
    requires n < |turns|
  {
    forall m :: i < m <= n ==> k in turns[m].keys
  }

  /** Each start of the key, since when it has been a candidate all the time, is long enough ago. */
  ghost predicate Rested(loops: seq<Loop>, turns: seq<Turn>, poll: nat, n: nat, k: string)
    requires n < |turns| <= |loops|
  {
    forall i :: 0 <= i < n && k in Starts(loops, turns, i) && Stays(turns, i, n, k) ==>
      turns[i].now + poll <= turns[n].now
  }

  lemma TurnOf(loops: seq<Loop>, turns: seq<Turn>, poll: nat, n: nat)
    requires Turns(loops, turns, poll) && n < |turns|
    ensures Ascending(turns[n].keys) && loops[n + 1] == AfterTurn(loops[n], turns[n], poll)
  {
    var turn := turns[n];
  }

  /** A wait goes back to the last start of its key, which has been a candidate since. */
  lemma {:induction false} WaitIsStart(loops: seq<Loop>, turns: seq<Turn>, poll: nat, n: nat, k: string)
    returns (i: nat)
    requires Turns(loops, turns, poll) && n <= |turns| && k in loops[n].waits
    ensures i < n && k in Starts(loops, turns, i) && loops[n].waits[k] == turns[i].now + poll
    ensures forall m :: i < m < n ==> k in turns[m].keys
  {
    assert n > 0;
    LastTurnWaits(loops, turns, poll, n - 1, k);
    if k in Starts(loops, turns, n - 1) {
      i := n - 1;
    } else {
      i := WaitIsStart(loops, turns, poll, n - 1, k);
    }
  }

  lemma LastTurnWaits(loops: seq<Loop>, turns: seq<Turn>, poll: nat, n: nat, k: string)
    requires Turns(loops, turns, poll) && n < |turns| && k in loops[n + 1].waits
    ensures if k in Starts(loops, turns, n) then loops[n + 1].waits[k] == turns[n].now + poll
            else k in turns[n].keys && k in loops[n].waits && loops[n + 1].waits[k] == loops[n].waits[k]
  {
    TurnOf(loops, turns, poll, n);
    TurnTells(loops[n], turns[n], poll);
  }

  /** As long as it stays a candidate, a started key waits from its last start on. */
  lemma {:induction false} StartIsWait(loops: seq<Loop>, turns: seq<Turn>, poll: nat, i: nat, n: nat, k: string)
    requires Turns(loops, turns, poll) && i < n <= |turns| && k in Starts(loops, turns, i)
    requires forall m :: i < m < n ==> k in turns[m].keys && k !in Starts(loops, turns, m)
    ensures k in loops[n].waits && loops[n].waits[k] == turns[i].now + poll
  {
    TurnOf(loops, turns, poll, n - 1);
    TurnTells(loops[n - 1], turns[n - 1], poll);
    if i < n - 1 {
      StartIsWait(loops, turns, poll, i, n - 1, k);
    }
  }

  /** A key started at one time is not started again before the waiting time is over, while it stays a candidate. */
  lemma {:induction false} StartedKeyWaits(loops: seq<Loop>, turns: seq<Turn>, poll: nat, i: nat, n: nat, k: string)
    requires Turns(loops, turns, poll) && i < n < |turns| && k in Starts(loops, turns, i) && Stays(turns, i, n, k)
    requires k in Starts(loops, turns, n)
    ensures turns[i].now + poll <= turns[n].now
    decreases n - i
  {
    if m: nat :| i < m < n && k in Starts(loops, turns, m) {
      StartedKeyWaits(loops, turns, poll, i, m, k);
      StartedKeyWaits(loops, turns, poll, m, n, k);
    } else {
      StartIsWait(loops, turns, poll, i, n, k);
      TurnOf(loops, turns, poll, n);
      TurnTells(loops[n], turns[n], poll);
    }
  }

  /** Which keys a turn starts, told by the starts and the times before it: only candidates without a task that have
      waited, each once; and every one of these, unless the turn ran out of room. */
  lemma StartedExactly(loops: seq<Loop>, turns: seq<Turn>, poll: nat, n: nat, k: string)
    requires Turns(loops, turns, poll) && n < |turns|
    ensures Distinct(Starts(loops, turns, n)) && |Starts(loops, turns, n)| <= turns[n].room
    ensures k in Starts(loops, turns, n) ==>
      k in turns[n].keys && k !in turns[n].busy && Rested(loops, turns, poll, n, k)
    ensures k in turns[n].keys && k !in turns[n].busy && Rested(loops, turns, poll, n, k) ==>
      k in Starts(loops, turns, n) || |Starts(loops, turns, n)| == turns[n].room
  {
    TurnOf(loops, turns, poll, n);
    TurnTells(loops[n], turns[n], poll);
    if k in Starts(loops, turns, n) {
      forall i | 0 <= i < n && k in Starts(loops, turns, i) && Stays(turns, i, n, k)
        ensures turns[i].now + poll <= turns[n].now
      {
        StartedKeyWaits(loops, turns, poll, i, n, k);
      }
    } else if k in loops[n].waits && k in turns[n].keys {
      var i := WaitIsStart(loops, turns, poll, n, k);
      assert Stays(turns, i, n, k);
    }
  }

  // ---- Fairness

  /** From c, x comes before k when the keys are gone through in order, and from the last on to the first. */
  predicate Toward(c: string, k: string, x: string) {
    if Less(c, k) then Less(c, x) && Less(x, k) else Less(c, x) || Less(x, k)
  }

  lemma TowardOn(c: string, k: string, y: string, x: string)
    requires Toward(c, k, y) && Toward(y, k, x)
    ensures Toward(c, k, x)
  {
    LessTotal(c, k);
    LessTotal(y, k);
    if Less(c, y) && Less(y, x) {
      LessTransitive(c, y, x);
    }
    if Less(y, k) && Less(k, c) {
      LessTransitive(y, k, c);
    }
    if Less(x, k) && Less(k, c) {
      LessTransitive(x, k, c);
    }
    if Less(c, k) && Less(k, y) {
      LessTransitive(c, k, y);
    }
    if Less(y, k) && Less(k, y) {
      LessTransitive(y, k, y);
    }
    LessIrreflexive(y);
    LessIrreflexive(k);
  }

  lemma NeverToward(x: string, k: string)
    ensures !Toward(x, k, x) && !Toward(x, k, k)
  {
    LessIrreflexive(x);
    LessIrreflexive(k);
  }

  /** The keys lie ever nearer to k. */
  ghost predicate Nearing(c: string, k: string, list: seq<string>) {
    && (forall m :: 0 <= m < |list| ==> Toward(c, k, list[m]))
    && (forall a, b :: 0 <= a < b < |list| ==> Toward(list[a], k, list[b]))
  }

  lemma NearingOn(c: string, k: string, a: seq<string>, b: seq<string>)
    requires Nearing(c, k, a) && Nearing(LastOr(a, c), k, b)
    ensures Nearing(c, k, a + b)
  {
    if a != [] {
      var last := a[|a| - 1];
      forall m | 0 <= m < |b| ensures Toward(c, k, b[m]) {
        TowardOn(c, k, last, b[m]);
      }
      forall i, m | 0 <= i < |a| && 0 <= m < |b| ensures Toward(a[i], k, b[m]) {
        if i < |a| - 1 {
          TowardOn(a[i], k, last, b[m]);
        }
      }
    }
  }

  lemma NearingTail(c: string, k: string, x: string, rest: seq<string>)
    requires Nearing(c, k, [x] + rest)
    ensures Toward(c, k, x) && Nearing(x, k, rest) && Nearing(c, k, rest)
  {
    var list := [x] + rest;
    assert list[0] == x;
    forall m | 0 <= m < |rest| ensures Toward(c, k, rest[m]) && Toward(x, k, rest[m]) {
      assert list[m + 1] == rest[m];
    }
    forall a, b | 0 <= a < b < |rest| ensures Toward(rest[a], k, rest[b]) {
      assert list[a + 1] == rest[a] && list[b + 1] == rest[b];
    }
  }

  lemma NearingIsDistinct(c: string, k: string, list: seq<string>)
    requires Nearing(c, k, list)
    ensures Distinct(list) && k !in list
  {
    forall a, b | 0 <= a < b < |list| ensures list[a] != list[b] {
      NeverToward(list[a], k);
    }
    forall m | 0 <= m < |list| ensures list[m] != k {
      NeverToward(c, k);
    }
  }

  /** The list from just after c on, wrapped around at its end, nears each of its members. */
  lemma RotatedNears(keys: seq<string>, c: string, d: nat)
    requires Ascending(keys) && d < |keys|
    ensures Nearing(c, Rotated(keys, c)[d], Rotated(keys, c)[..d])
  {
    var i, n, list := StartIndex(keys, c), |keys|, Rotated(keys, c);
    var k := list[d];
    forall o | 0 <= o <= d ensures if i + o < n then list[o] == keys[i + o] && Less(c, list[o])
                                   else list[o] == keys[i + o - n] && !Less(c, list[o]) {
      StartSplits(keys, c, if i + o < n then i + o else i + o - n);
    }
    forall o | 0 <= o < d ensures Toward(c, k, list[o]) {
    }
    forall a, b | 0 <= a < b < d ensures Toward(list[a], k, list[b]) {
      WrappedToward(c, list[a], list[b], k);
    }
  }

  lemma StartSplits(keys: seq<string>, c: string, m: nat)
    requires Ascending(keys) && m < |keys|
    ensures Less(c, keys[m]) <==> StartIndex(keys, c) <= m
  {
    var i := StartIndex(keys, c);
    LessTotal(c, keys[m]);
    if m < i {
      if Less(c, keys[m]) && Less(keys[m], c) {
        LessTransitive(c, keys[m], c);
      }
      LessIrreflexive(c);
    } else {
      LessTotal(c, keys[i]);
      if i < m {
        LessTransitive(c, keys[i], keys[m]);
      }
    }
  }

  lemma WrappedToward(c: string, x: string, y: string, k: string)
    requires (Less(c, x) && !Less(c, y)) || ((Less(c, x) <==> Less(c, y)) && Less(x, y))
    requires (Less(c, y) && !Less(c, k)) || ((Less(c, y) <==> Less(c, k)) && Less(y, k))
    ensures Toward(x, k, y)
  {
    LessTotal(x, k);
    if Less(x, y) && Less(y, k) {
      LessTransitive(x, y, k);
    }
    if Less(c, x) && Less(x, k) {
      LessTransitive(c, x, k);
    }
  }

  /** What is picked before a ready key that is passed over keeps whatever order the list has up to that key. */
  lemma {:induction false} PickedNears(list: seq<string>, pass: Pass, d: nat, c: string, k: string)
    requires d < |list| && list[d] == k && Ready(pass.busy, pass.waits, pass.now, k) && Nearing(c, k, list[..d])
    requires k !in PickedFrom(list, pass)
    ensures Nearing(c, k, PickedFrom(list, pass))
    decreases |list|
  {
    var p := PickedFrom(list, pass);
    if pass.room > 0 {
      assert d > 0 && list[..d][0] == list[0];
      var rest := list[1..];
      assert list[..d] == [list[0]] + rest[..d - 1];
      NearingTail(c, k, list[0], rest[..d - 1]);
      if Ready(pass.busy, pass.waits, pass.now, list[0]) {
        PickedNears(rest, pass.(room := pass.room - 1), d - 1, list[0], k);
        var q := PickedFrom(rest, pass.(room := pass.room - 1));
        assert p == [list[0]] + q;
        assert Nearing(c, k, [list[0]]);
        NearingOn(c, k, [list[0]], q);
      } else {
        PickedNears(rest, pass, d - 1, c, k);
      }
    }
  }

  /** One turn that passes over a ready key starts only keys before it, in order. */
  lemma TurnNears(l: Loop, turn: Turn, k: string)
    requires Ascending(turn.keys) && k in turn.keys && k !in turn.busy
    requires Due(KeptWaits(l.waits, turn.keys), turn.now, k)
    requires k !in StartedBy(l, turn)
    ensures Nearing(l.cursor, k, StartedBy(l, turn))
  {
    var list := Rotated(turn.keys, l.cursor);
    RotatedElements(turn.keys, l.cursor, k);
    var d: nat :| d < |list| && list[d] == k;
    RotatedNears(turn.keys, l.cursor, d);
    PickedNears(list, Pass(turn.busy, KeptWaits(l.waits, turn.keys), turn.now, turn.room), d, l.cursor, k);
  }

  /** What the turns from a up to b start, in order. */
  function AllStarts(loops: seq<Loop>, turns: seq<Turn>, a: nat, b: nat): seq<string>
    requires a <= b <= |turns| <= |loops|
    decreases b - a
  {
    if a == b then [] else Starts(loops, turns, a) + AllStarts(loops, turns, a + 1, b)
  }

  /** In each of these turns the key is a candidate, has no task, has waited, and is not started. */
  ghost predicate Overlooked(loops: seq<Loop>, turns: seq<Turn>, poll: nat, a: nat, b: nat, k: string)
    requires a <= b <= |turns| <= |loops|
  {
    forall n {:trigger turns[n]} :: a <= n < b ==>
      && k in turns[n].keys && k !in turns[n].busy && Rested(loops, turns, poll, n, k)
      && k !in Starts(loops, turns, n)
  }

  lemma OverlookedFrom(loops: seq<Loop>, turns: seq<Turn>, poll: nat, a: nat, b: nat, k: string)
    requires a < b <= |turns| <= |loops| && Overlooked(loops, turns, poll, a, b, k)
    ensures k in turns[a].keys && k !in turns[a].busy && Rested(loops, turns, poll, a, k)
    ensures k !in Starts(loops, turns, a) && Overlooked(loops, turns, poll, a + 1, b, k)
  {
    var turn := turns[a];
    forall n {:trigger turns[n]} | a + 1 <= n < b
      ensures k in turns[n].keys && k !in turns[n].busy && Rested(loops, turns, poll, n, k)
      ensures k !in Starts(loops, turns, n)
    {
      var other := turns[n];
    }
  }

  lemma RestedIsDue(loops: seq<Loop>, turns: seq<Turn>, poll: nat, n: nat, k: string)
    requires Turns(loops, turns, poll) && n < |turns| && Rested(loops, turns, poll, n, k)
    ensures Due(KeptWaits(loops[n].waits, turns[n].keys), turns[n].now, k)
  {
    if k in loops[n].waits && k in turns[n].keys {
      var i := WaitIsStart(loops, turns, poll, n, k);
      assert Stays(turns, i, n, k);
    }
  }

  lemma {:induction false} OverlookingNears(loops: seq<Loop>, turns: seq<Turn>, poll: nat, a: nat, b: nat, k: string)
    requires Turns(loops, turns, poll) && a <= b <= |turns| && Overlooked(loops, turns, poll, a, b, k)
    ensures Nearing(loops[a].cursor, k, AllStarts(loops, turns, a, b))
    decreases b - a
  {
    if a < b {
      TurnOf(loops, turns, poll, a);
      OverlookedFrom(loops, turns, poll, a, b, k);
      RestedIsDue(loops, turns, poll, a, k);
      TurnNears(loops[a], turns[a], k);
      OverlookingNears(loops, turns, poll, a + 1, b, k);
      NearingOn(loops[a].cursor, k, Starts(loops, turns, a), AllStarts(loops, turns, a + 1, b));
    }
  }

  function Candidates(turns: seq<Turn>): set<string> {
    set n, k | 0 <= n < |turns| && k in turns[n].keys :: k
  }

  lemma {:induction false} StartsAreCandidates(loops: seq<Loop>, turns: seq<Turn>, poll: nat, a: nat, b: nat)
    requires Turns(loops, turns, poll) && a <= b <= |turns|
    ensures forall k :: k in AllStarts(loops, turns, a, b) ==> k in Candidates(turns[a..b])
    decreases b - a
  {
    if a < b {
      TurnOf(loops, turns, poll, a);
      TurnTells(loops[a], turns[a], poll);
      StartsAreCandidates(loops, turns, poll, a + 1, b);
      forall k | k in AllStarts(loops, turns, a, b) ensures k in Candidates(turns[a..b]) {
        if k in Starts(loops, turns, a) {
          assert turns[a..b][0] == turns[a];
        } else {
          assert k in Candidates(turns[a + 1..b]);
          var n :| 0 <= n < |turns[a + 1..b]| && k in turns[a + 1..b][n].keys;
          assert turns[a..b][n + 1] == turns[a + 1..b][n];
        }
      }
    }
  }

  /** How many tasks the turns from a up to b had places for. */
  function Places(turns: seq<Turn>, a: nat, b: nat): nat
    requires a <= b <= |turns|
    decreases b - a
  {
    if a == b then 0 else turns[a].room + Places(turns, a + 1, b)
  }

  /** No place is left free while a key that could start is passed over. */
  lemma {:induction false} PlacesAreTaken(loops: seq<Loop>, turns: seq<Turn>, poll: nat, a: nat, b: nat, k: string)
    requires Turns(loops, turns, poll) && a <= b <= |turns| && Overlooked(loops, turns, poll, a, b, k)
    ensures |AllStarts(loops, turns, a, b)| == Places(turns, a, b)
    decreases b - a
  {
    if a < b {
      OneTurnTakesPlaces(loops, turns, poll, a, b, k);
      PlacesAreTaken(loops, turns, poll, a + 1, b, k);
      assert AllStarts(loops, turns, a, b) == Starts(loops, turns, a) + AllStarts(loops, turns, a + 1, b);
    }
  }

  lemma OneTurnTakesPlaces(loops: seq<Loop>, turns: seq<Turn>, poll: nat, a: nat, b: nat, k: string)
    requires Turns(loops, turns, poll) && a < b <= |turns| && Overlooked(loops, turns, poll, a, b, k)
    ensures |Starts(loops, turns, a)| == turns[a].room && Overlooked(loops, turns, poll, a + 1, b, k)
  {
    OverlookedFrom(loops, turns, poll, a, b, k);
    StartedExactly(loops, turns, poll, a, k);
  }

  /** While a key is a candidate that has no task and has waited, and is passed over, no other key starts twice, even
      as candidates come and go: at most all the others start, once each, and by the time there were places for all
      of them it is its turn. */
  lemma NoKeyStartsTwiceFirst(loops: seq<Loop>, turns: seq<Turn>, poll: nat, a: nat, b: nat, k: string)
    requires Turns(loops, turns, poll) && a < b <= |turns| && Overlooked(loops, turns, poll, a, b, k)
    ensures var all := AllStarts(loops, turns, a, b);
      Distinct(all) && k !in all && |all| == Places(turns, a, b) < |Candidates(turns[a..b])|
  {
    PlacesAreTaken(loops, turns, poll, a, b, k);
    var all := AllStarts(loops, turns, a, b);
    OverlookingNears(loops, turns, poll, a, b, k);
    NearingIsDistinct(loops[a].cursor, k, all);
    StartsAreCandidates(loops, turns, poll, a, b);
    OverlookedFrom(loops, turns, poll, a, b, k);
    assert turns[a..b][0] == turns[a];
    FewerThan(all, Candidates(turns[a..b]), k);
  }

  lemma FewerThan(list: seq<string>, all: set<string>, k: string)
    requires Distinct(list) && (forall x :: x in list ==> x in all) && k in all && k !in list
    ensures |list| < |all|
  {
    DistinctCounts(list);
    var some := set x | x in list;
    assert all == some + (all - some) && k in all - some;
  }

  lemma {:induction false} DistinctCounts(list: seq<string>)
    requires Distinct(list)
    ensures |set x | x in list| == |list|
  {
    if list == [] {
      assert (set x | x in list) == {};
    } else {
      var n := |list| - 1;
      DistinctCounts(list[..n]);
      assert list == list[..n] + [list[n]];
      assert (set x | x in list) == (set x | x in list[..n]) + {list[n]};
      assert list[n] !in list[..n];
    }
  }
}
