/** Pages of the recovery directory (`list_recovery_page`, src/pin.rs): bounded memory, whatever order
    the directory yields its names in. */
module PinListing {
  import opened Types
  import opened Names
  import Sums

  const LOCK := ".lock"
  const MAX_PAGE: nat := 128
  const NAME_BYTES: nat := 200

  predicate ValidName(name: string) {
    && name != "" && |name| <= NAME_BYTES && name != LOCK
    && |Components(name)| == 1 && Components(name)[0].Normal?
  }

  predicate Skipped(name: string) {
    name == "." || name == ".." || name == LOCK
  }

  /** The names a walk of the directory visits. */
  function Visible(dir: seq<string>): set<string> {
    set x | x in dir && !Skipped(x)
  }

  function Past(names: set<string>, cursor: Option<string>): set<string> {
    set x | x in names && (cursor.None? || Less(cursor.value, x))
  }

  // ---- The smallest names seen so far

  /** `kept` holds the n smallest of `seen`, or all of them. */
  ghost predicate Smallest(kept: set<string>, seen: set<string>, n: nat) {
    && kept <= seen && |kept| == (if |seen| < n then |seen| else n)
    && forall x, y :: x in kept && y in seen && y !in kept ==> Less(x, y)
  }

  function Greatest(names: set<string>): (x: string)
    requires names != {}
    ensures x in names && forall y :: y in names && y != x ==> Less(y, x)
  {
    var list := Sorted(names);
    var x := list[|list| - 1];
    assert x in list;
    assert forall y :: y in names && y != x ==> Less(y, x) by {
      forall y | y in names && y != x ensures Less(y, x) {
        assert y in list;
        var i :| 0 <= i < |list| && list[i] == y;
      }
    }
    x
  }

  /** Inserting one more name and dropping the greatest when there are too many. */
  lemma InsertAndPop(kept: set<string>, seen: set<string>, n: nat, x: string)
    requires Smallest(kept, seen, n) && n > 0
    ensures var more := kept + {x};
      Smallest(if |more| > n then more - {Greatest(more)} else more, seen + {x}, n)
  {
    var more := kept + {x};
    if |seen| < n {
      Sums.SubsetCounts(kept, seen);
      assert kept == seen;
    } else if x in seen {
      assert seen + {x} == seen;
      if x in kept {
        assert more == kept;
      } else {
        assert Greatest(more) == x by {
          LessIrreflexive(x);
          assert forall y :: y in kept ==> Less(y, x);
          if Greatest(more) != x {
            LessTransitive(x, Greatest(more), x);
          }
        }
        assert more - {x} == kept;
      }
    } else {
      PopSmallest(kept, seen, n, x);
    }
  }

  lemma PopSmallest(kept: set<string>, seen: set<string>, n: nat, x: string)
    requires Smallest(kept, seen, n) && n > 0 && x !in seen && |seen| >= n
    ensures Smallest(kept + {x} - {Greatest(kept + {x})}, seen + {x}, n)
  {
    var more := kept + {x};
    var g := Greatest(more);
    forall a, b | a in more - {g} && b in seen + {x} && b !in more - {g} ensures Less(a, b) {
      if b != g {
        assert b in seen && b !in kept;
        if a !in kept {
          assert g in kept && Less(a, g) && Less(g, b);
          LessTransitive(a, g, b);
        }
      }
    }
  }

  lemma FirstOfBoth(kept: set<string>, seen: set<string>, n: nat) returns (x: string)
    requires Smallest(kept, seen, n) && kept != {} && n > 0
    ensures x == First(kept) == First(seen) && Smallest(kept - {x}, seen - {x}, n - 1)
  {
    x := First(kept);
    forall y | y in seen && y != x ensures Less(x, y) {
    }
    FirstUnique(seen, x, First(seen));
  }

  lemma SortedHead(names: set<string>, x: string)
    requires names != {} && x == First(names)
    ensures Sorted(names) == [x] + Sorted(names - {x})
  {
  }

  lemma PrefixGrows(x: string, a: seq<string>, b: seq<string>)
    requires |a| <= |b| && a == b[..|a|]
    ensures [x] + a == ([x] + b)[..|a| + 1]
  {
  }

  lemma {:induction false} SmallestIsPrefix(kept: set<string>, seen: set<string>, n: nat)
    requires Smallest(kept, seen, n)
    ensures |Sorted(seen)| >= |kept| && Sorted(kept) == Sorted(seen)[..|kept|]
    decreases n
  {
    if kept == {} {
      assert Sorted(kept) == [];
    } else {
      var x := FirstOfBoth(kept, seen, n);
      SmallestIsPrefix(kept - {x}, seen - {x}, n - 1);
      SortedHead(kept, x);
      SortedHead(seen, x);
      PrefixGrows(x, Sorted(kept - {x}), Sorted(seen - {x}));
    }
  }

  function Bounded(kept: set<string>, x: string, n: nat): set<string> {
    var more := kept + {x};
    if |more| > n then more - {Greatest(more)} else more
  }

  /** One turn of the listing loop, and the loop over some of the directory. */
  function Turn(kept: set<string>, x: string, cursor: Option<string>, n: nat): set<string> {
    if Skipped(x) || (cursor.Some? && !Less(cursor.value, x)) then kept else Bounded(kept, x, n)
  }

  function Collected(dir: seq<string>, cursor: Option<string>, n: nat): set<string> {
    if dir == [] then {} else Turn(Collected(dir[..|dir| - 1], cursor, n), dir[|dir| - 1], cursor, n)
  }

  lemma {:induction false} CollectedIsSmallest(dir: seq<string>, cursor: Option<string>, n: nat)
    requires n > 0
    ensures Smallest(Collected(dir, cursor, n), Past(Visible(dir), cursor), n)
  {
    if dir != [] {
      var i := |dir| - 1;
      CollectedIsSmallest(dir[..i], cursor, n);
      OneMoreName(dir, cursor);
      TurnKeeps(Collected(dir[..i], cursor, n), Past(Visible(dir[..i]), cursor), dir[i], cursor, n);
    }
  }

  lemma TurnKeeps(kept: set<string>, seen: set<string>, x: string, cursor: Option<string>, n: nat)
    requires n > 0 && Smallest(kept, seen, n)
    ensures Smallest(Turn(kept, x, cursor, n),
                     if Skipped(x) || (cursor.Some? && !Less(cursor.value, x)) then seen else seen + {x}, n)
  {
    InsertAndPop(kept, seen, n, x);
  }

  lemma OneMoreName(dir: seq<string>, cursor: Option<string>)
    requires dir != []
    ensures var i := |dir| - 1;
      Past(Visible(dir), cursor) == if Skipped(dir[i]) || (cursor.Some? && !Less(cursor.value, dir[i]))
                                    then Past(Visible(dir[..i]), cursor) else Past(Visible(dir[..i]), cursor) + {dir[i]}
  {
    assert dir == dir[..|dir| - 1] + [dir[|dir| - 1]];
  }

  // ---- One page

  datatype Listed = Listed(names: seq<string>, next: Option<string>)

  /** The page a caller should see: the first names past the cursor, and where to go on. */
  function PageOf(names: set<string>, cursor: Option<string>, limit: nat): Listed
    requires limit > 0
  {
    var list := Sorted(Past(names, cursor));
    if |list| > limit then Listed(list[..limit], Some(list[limit - 1])) else Listed(list, None)
  }

  method Insert(names: set<string>, x: string, n: nat) returns (kept: set<string>)
    ensures kept == Bounded(names, x, n)
  {
    kept := names + {x};
    if |kept| > n {
      kept := kept - {Greatest(kept)};
    }
  }

  /** The n smallest names past the cursor, or the error of the first name that is not valid. */
  method Collect(dir: seq<string>, cursor: Option<string>, n: nat) returns (names: set<string>, ok: bool)
    ensures ok <==> forall x :: x in Visible(dir) ==> ValidName(x)
    ensures ok ==> names == Collected(dir, cursor, n)
  {
    names, ok := {}, true;
    var i := 0;
    while i < |dir|
      invariant i <= |dir| && ok
      invariant AllValid(dir[..i])
      invariant names == Collected(dir[..i], cursor, n)
    {
      var name := dir[i];
      CollectedStep(dir, i, cursor, n);
      if !Skipped(name) {
        if !ValidName(name) {
          assert name in Visible(dir);
          return names, false;
        }
        if cursor.None? || Less(cursor.value, name) {
          names := Insert(names, name, n);
        }
      }
      i := i + 1;
    }
    assert dir[..i] == dir;
    AllValidMeans(dir);
  }

  method ListPage(dir: seq<string>, cursor: Option<string>, limit: nat) returns (r: Result<Listed>)
    ensures r.Ok? <==>
      && 0 < limit <= MAX_PAGE && (cursor.Some? ==> ValidName(cursor.value))
      && forall x :: x in Visible(dir) ==> ValidName(x)
    ensures r.Ok? ==> r.value == PageOf(Visible(dir), cursor, limit) && |r.value.names| <= limit
    ensures r.Ok? && r.value.next.Some? ==> ValidName(r.value.next.value)
  {
    if limit == 0 || limit > MAX_PAGE {
      return Err(Usage);
    }
    if cursor.Some? && !ValidName(cursor.value) {
      return Err(Protocol);
    }
    var names, ok := Collect(dir, cursor, limit + 1);
    if !ok {
      return Err(Protocol);
    }
    CollectedIsSmallest(dir, cursor, limit + 1);
    var page := Cut(names, Visible(dir), cursor, limit);
    return Ok(page);
  }

  /** The page and its cursor: one name too many says that there are more. */
  method Cut(kept: set<string>, ghost names: set<string>, ghost cursor: Option<string>, limit: nat) returns (r: Listed)
    requires limit > 0 && Smallest(kept, Past(names, cursor), limit + 1)
    ensures r == PageOf(names, cursor, limit) && |r.names| <= limit
    ensures r.next.Some? ==> r.next.value in names
  {
    FinishPage(kept, names, cursor, limit);
    if |kept| > limit {
      var page := kept - {Greatest(kept)};
      return Listed(Sorted(page), Some(Greatest(page)));
    }
    return Listed(Sorted(kept), None);
  }

  lemma CollectedStep(dir: seq<string>, i: nat, cursor: Option<string>, n: nat)
    requires i < |dir|
    ensures Collected(dir[..i + 1], cursor, n) == Turn(Collected(dir[..i], cursor, n), dir[i], cursor, n)
    ensures AllValid(dir[..i + 1]) <==> (Skipped(dir[i]) || ValidName(dir[i])) && AllValid(dir[..i])
  {
    assert dir[..i + 1][..i] == dir[..i];
  }

  predicate AllValid(dir: seq<string>) {
    dir == [] || ((Skipped(dir[|dir| - 1]) || ValidName(dir[|dir| - 1])) && AllValid(dir[..|dir| - 1]))
  }

  lemma {:induction false} AllValidMeans(dir: seq<string>)
    requires AllValid(dir)
    ensures forall x :: x in Visible(dir) ==> ValidName(x)
  {
    if dir != [] {
      AllValidMeans(dir[..|dir| - 1]);
      assert dir == dir[..|dir| - 1] + [dir[|dir| - 1]];
    }
  }

  /** The n + 1 smallest names make the page and its cursor. */
  lemma FinishPage(kept: set<string>, names: set<string>, cursor: Option<string>, limit: nat)
    requires limit > 0 && Smallest(kept, Past(names, cursor), limit + 1)
    ensures if |kept| > limit then
              var page := kept - {Greatest(kept)};
              page != {} && PageOf(names, cursor, limit) == Listed(Sorted(page), Some(Greatest(page)))
            else PageOf(names, cursor, limit) == Listed(Sorted(kept), None)
    ensures forall x :: x in kept ==> x in names
  {
    var list := Sorted(Past(names, cursor));
    SmallestIsPrefix(kept, Past(names, cursor), limit + 1);
    PageIs(names, cursor, limit, list);
    if |kept| > limit {
      PoppedPage(kept, kept - {Greatest(kept)}, list, limit);
    } else {
      assert list[..|kept|] == list;
    }
  }

  lemma PageIs(names: set<string>, cursor: Option<string>, limit: nat, list: seq<string>)
    requires limit > 0 && list == Sorted(Past(names, cursor))
    ensures PageOf(names, cursor, limit)
         == if |list| > limit then Listed(list[..limit], Some(list[limit - 1])) else Listed(list, None)
  {
  }

  lemma FirstOfFirst(list: seq<string>, n: nat)
    requires n < |list|
    ensures list[..n + 1][..n] == list[..n]
  {
  }

  lemma PoppedPage(kept: set<string>, page: set<string>, list: seq<string>, limit: nat)
    requires 0 < limit < |list| && |kept| == limit + 1 && Sorted(kept) == list[..limit + 1]
    requires page == kept - {Greatest(kept)}
    ensures page != {} && Sorted(page) == list[..limit] && Greatest(page) == list[limit - 1]
  {
    DropGreatest(kept);
    FirstOfFirst(list, limit);
    GreatestIsLast(page);
  }

  lemma DropGreatest(names: set<string>)
    requires names != {}
    ensures Sorted(names - {Greatest(names)}) == Sorted(names)[..|names| - 1]
  {
    var g := Greatest(names);
    assert Smallest(names - {g}, names, |names| - 1);
    SmallestIsPrefix(names - {g}, names, |names| - 1);
  }

  lemma GreatestIsLast(names: set<string>)
    requires names != {}
    ensures Greatest(names) == Sorted(names)[|names| - 1]
  {
  }

  // ---- Following the cursor

  lemma PastAfter(names: set<string>, cursor: Option<string>, limit: nat)
    requires 0 < limit < |Past(names, cursor)|
    ensures var list := Sorted(Past(names, cursor));
      && Sorted(Past(names, Some(list[limit - 1]))) == list[limit..]
      && Past(names, Some(list[limit - 1])) < Past(names, cursor)
  {
    var past := Past(names, cursor);
    var list := Sorted(past);
    var rest := Past(names, Some(list[limit - 1]));
    assert list[limit - 1] in list;
    forall x | x in names ensures x in rest <==> x in list[limit..] {
      if x in rest {
        if cursor.Some? {
          LessTransitive(cursor.value, list[limit - 1], x);
        }
        assert x in list;
        var i :| 0 <= i < |list| && list[i] == x;
        if i < limit {
          if i < limit - 1 {
            LessTransitive(x, list[limit - 1], x);
          }
          LessIrreflexive(x);
        }
        assert list[limit..][i - limit] == x;
      }
      if x in list[limit..] {
        var i :| 0 <= i < |list[limit..]| && list[limit..][i] == x;
        assert list[limit + i] == x;
      }
    }
    LessIrreflexive(list[limit - 1]);
    assert list[limit - 1] in past && list[limit - 1] !in rest;
    SortedUnique(rest, list[limit..]);
  }

  /** There is one ascending list of a set. */
  lemma {:induction false} SortedUnique(names: set<string>, list: seq<string>)
    requires Ascending(list) && forall x :: x in names <==> x in list
    ensures Sorted(names) == list
    decreases |list|
  {
    if list == [] {
      assert names == {};
    } else {
      var x := list[0];
      assert x in list;
      forall y | y in names && y != x ensures Less(x, y) {
        var i :| 0 <= i < |list| && list[i] == y;
      }
      FirstUnique(names, x, First(names));
      assert x !in list[1..] by {
        if x in list[1..] {
          var i :| 0 <= i < |list[1..]| && list[1..][i] == x;
          assert Less(list[0], list[i + 1]);
          LessIrreflexive(x);
        }
      }
      assert forall y :: y in list <==> y == x || y in list[1..];
      SortedUnique(names - {x}, list[1..]);
    }
  }

  /** All names on the pages reached from a cursor. */
  function Walk(names: set<string>, cursor: Option<string>, limit: nat): seq<string>
    requires limit > 0
    decreases Past(names, cursor)
  {
    var page := PageOf(names, cursor, limit);
    if page.next.None? then page.names else
    PastAfter(names, cursor, limit);
    page.names + Walk(names, page.next, limit)
  }

  /** A page and the walk from its end, as they stand in the sorted names. */
  lemma WalkStep(names: set<string>, cursor: Option<string>, limit: nat, list: seq<string>)
    requires limit > 0 && list == Sorted(Past(names, cursor))
    ensures |list| <= limit ==> Walk(names, cursor, limit) == list
    ensures |list| > limit ==>
      var next := Some(list[limit - 1]);
      && Walk(names, cursor, limit) == list[..limit] + Walk(names, next, limit)
      && Sorted(Past(names, next)) == list[limit..] && Past(names, next) < Past(names, cursor)
  {
    if |list| > limit {
      PastAfter(names, cursor, limit);
    }
  }

  lemma TwoParts(list: seq<string>, n: nat, rest: seq<string>)
    requires n <= |list| && rest == list[n..]
    ensures list[..n] + rest == list
  {
  }

  /** Following the cursor shows every name exactly once, in order, and ends. */
  lemma {:induction false} WalkShowsAll(names: set<string>, cursor: Option<string>, limit: nat)
    requires limit > 0
    ensures Walk(names, cursor, limit) == Sorted(Past(names, cursor))
    decreases Past(names, cursor)
  {
    var list := Sorted(Past(names, cursor));
    WalkStep(names, cursor, limit, list);
    if |list| > limit {
      var next := Some(list[limit - 1]);
      WalkShowsAll(names, next, limit);
      TwoParts(list, limit, Walk(names, next, limit));
    }
  }

  /** A walk that starts without a cursor shows every name. */
  lemma WalkFromStart(names: set<string>, limit: nat)
    requires limit > 0
    ensures Walk(names, None, limit) == Sorted(names)
  {
    WalkShowsAll(names, None, limit);
    assert Past(names, None) == names;
  }

  // ---- Which names are valid

  /** Of the names that a directory can hold, all but its lock and those that are too long. */
  lemma ValidNameIff(name: string)
    requires '/' !in name && name !in {"", ".", ".."}
    ensures ValidName(name) <==> name != ".lock" && |name| <= 200
  {
    PlainComponent(name);
  }
}
