/** File names: the order and the path components that Rust's `str` and `std::path` give them. */
module Names {
  // ---- Byte order, the order of `BTreeMap` and `BTreeSet` over strings

  predicate Less(a: string, b: string) {
    if b == "" then false
    else if a == "" then true
    else a[0] < b[0] || (a[0] == b[0] && Less(a[1..], b[1..]))
  }

  lemma {:induction false} LessTotal(a: string, b: string)
    ensures a == b || Less(a, b) || Less(b, a)
  {
    if a != "" && b != "" && a[0] == b[0] {
      LessTotal(a[1..], b[1..]);
      assert a == [a[0]] + a[1..] && b == [b[0]] + b[1..];
    }
  }

  lemma {:induction false} LessTransitive(a: string, b: string, c: string)
    requires Less(a, b) && Less(b, c)
    ensures Less(a, c)
  {
    if a != "" && a[0] == b[0] && b[0] == c[0] {
      LessTransitive(a[1..], b[1..], c[1..]);
    }
  }

  lemma {:induction false} LessIrreflexive(a: string)
    ensures !Less(a, a)
  {
    if a != "" {
      LessIrreflexive(a[1..]);
    }
  }

  ghost predicate Ascending(list: seq<string>) {
    forall i, j :: 0 <= i < j < |list| ==> Less(list[i], list[j])
  }

  predicate IsFirst(names: set<string>, x: string) {
    x in names && forall y :: y in names && y != x ==> Less(x, y)
  }

  lemma {:induction false} FirstExists(names: set<string>)
    requires names != {}
    ensures exists x :: IsFirst(names, x)
    decreases names
  {
    var y :| y in names;
    if names == {y} {
      assert IsFirst(names, y);
    } else {
      FirstExists(names - {y});
      var z :| IsFirst(names - {y}, z);
      LessTotal(y, z);
      if Less(y, z) {
        forall x | x in names && x != y ensures Less(y, x) {
          if x != z {
            LessTransitive(y, z, x);
          }
        }
        assert IsFirst(names, y);
      } else {
        assert IsFirst(names, z);
      }
    }
  }

  lemma FirstUnique(names: set<string>, x: string, y: string)
    requires IsFirst(names, x) && IsFirst(names, y)
    ensures x == y
  {
    if x != y {
      LessTransitive(x, y, x);
      LessIrreflexive(x);
    }
  }

  function First(names: set<string>): (x: string)
    requires names != {}
    ensures IsFirst(names, x)
  {
    FirstExists(names);
    assert forall x, y | IsFirst(names, x) && IsFirst(names, y) :: x == y by {
      forall x, y | IsFirst(names, x) && IsFirst(names, y) ensures x == y {
        FirstUnique(names, x, y);
      }
    }
    var x :| IsFirst(names, x);
    x
  }

  function Sorted(names: set<string>): (list: seq<string>)
    ensures |list| == |names|
    ensures forall x :: x in list <==> x in names
    ensures Ascending(list)
    decreases names
  {
    if names == {} then [] else
    var x := First(names);
    [x] + Sorted(names - {x})
  }

  // ---- `Path::components`

  datatype Component = RootDir | CurDir | ParentDir | Normal(name: string)

  function Split(path: string): (parts: seq<string>)
    ensures parts != []
  {
    if path == "" then [""]
    else if path[0] == '/' then [""] + Split(path[1..])
    else
      var rest := Split(path[1..]);
      [[path[0]] + rest[0]] + rest[1..]
  }

  function PartComponents(parts: seq<string>, first: bool): seq<Component> {
    if parts == [] then [] else
    var p := parts[0];
    (if p == "" then [] else if p == "." then (if first then [CurDir] else [])
     else if p == ".." then [ParentDir] else [Normal(p)])
    + PartComponents(parts[1..], false)
  }

  function Components(path: string): seq<Component> {
    if path == "" then []
    else if path[0] == '/' then [RootDir] + PartComponents(Split(path), false)
    else PartComponents(Split(path), true)
  }

  lemma {:induction false} SplitPlain(path: string)
    requires '/' !in path
    ensures Split(path) == [path]
  {
    if path == "" {
      assert Split(path) == [""];
    } else {
      SplitPlain(path[1..]);
      assert path == [path[0]] + path[1..];
      assert [path[1..]][1..] == [];
    }
  }

  /** A name without separators is its only component. */
  lemma PlainComponent(path: string)
    requires '/' !in path && path !in {"", ".", ".."}
    ensures Components(path) == [Normal(path)] && Split(path) == [path]
  {
    SplitPlain(path);
    assert path[0] in path;
    assert PartComponents([path][1..], false) == [];
  }

  // ---- Parts of a path

  /** What is before the part ends with a separator, and what is after it starts with one. */
  predicate PartAt(path: string, pre: string, part: string, post: string) {
    && path == pre + part + post && '/' !in part
    && (pre == "" || pre[|pre| - 1] == '/') && (post == "" || post[0] == '/')
  }

  /** The text stands in the path between separators, or between one and an end. */
  ghost predicate HasPart(path: string, part: string) {
    exists pre, post :: PartAt(path, pre, part, post)
  }

  lemma {:induction false} FirstPart(part: string, post: string)
    requires '/' !in part && (post == "" || post[0] == '/')
    ensures Split(part + post)[0] == part
  {
    if part == "" {
      assert part + post == post;
    } else {
      FirstPart(part[1..], post);
      assert (part + post)[1..] == part[1..] + post;
      assert part == [part[0]] + part[1..];
    }
  }

  lemma {:induction false} PartIsSplit(pre: string, part: string, post: string)
    requires '/' !in part && (pre == "" || pre[|pre| - 1] == '/') && (post == "" || post[0] == '/')
    ensures part in Split(pre + part + post)
    ensures pre != "" ==> part in Split(pre + part + post)[1..]
    decreases |pre|
  {
    if pre == "" {
      assert pre + part + post == part + post;
      FirstPart(part, post);
    } else {
      PartIsSplit(pre[1..], part, post);
      assert (pre + part + post)[1..] == pre[1..] + part + post;
    }
  }

  lemma {:induction false} SplitIsPart(path: string, i: nat) returns (pre: string, post: string)
    requires i < |Split(path)|
    ensures PartAt(path, pre, Split(path)[i], post)
    ensures i == 0 <==> pre == ""
  {
    if path == "" {
      pre, post := "", "";
    } else if path[0] == '/' {
      if i == 0 {
        pre, post := "", path;
      } else {
        pre, post := SplitIsPart(path[1..], i - 1);
        pre := "/" + pre;
        assert path == "/" + path[1..];
      }
    } else {
      pre, post := SplitIsPart(path[1..], i);
      assert path == [path[0]] + path[1..];
      if i > 0 {
        pre := [path[0]] + pre;
      }
    }
  }

  /** Splitting at the separators gives exactly the parts between them. */
  lemma SplitParts(path: string, part: string)
    ensures part in Split(path) <==> HasPart(path, part)
  {
    if HasPart(path, part) {
      var pre, post :| PartAt(path, pre, part, post);
      PartIsSplit(pre, part, post);
    }
    if part in Split(path) {
      var i :| 0 <= i < |Split(path)| && Split(path)[i] == part;
      var pre, post := SplitIsPart(path, i);
    }
  }

  lemma NormalPlus(a: seq<Component>, b: seq<Component>)
    ensures (forall c :: c in a + b ==> c.Normal?)
       <==> (forall c :: c in a ==> c.Normal?) && (forall c :: c in b ==> c.Normal?)
  {
    assert forall c :: c in a + b <==> c in a || c in b;
  }

  lemma {:induction false} NormalParts(parts: seq<string>, first: bool)
    ensures (forall c :: c in PartComponents(parts, first) ==> c.Normal?)
       <==> ".." !in parts && (first && parts != [] ==> parts[0] != ".")
  {
    if parts != [] {
      NormalParts(parts[1..], false);
      var p, rest := parts[0], PartComponents(parts[1..], false);
      var head := if p == "" then [] else if p == "." then (if first then [CurDir] else [])
                  else if p == ".." then [ParentDir] else [Normal(p)];
      assert PartComponents(parts, first) == head + rest;
      NormalPlus(head, rest);
      assert (forall c :: c in head ==> c.Normal?) <==> p != ".." && (first ==> p != ".") by {
        assert head != [] ==> head[0] in head;
      }
      assert ".." in parts <==> p == ".." || ".." in parts[1..];
    }
  }

  /** A path leads downwards only: it is relative, does not start with ".", and ".." is none of its parts. */
  lemma DownwardIff(path: string)
    requires path != ""
    ensures (forall c :: c in Components(path) ==> c.Normal?)
       <==> path[0] != '/' && path != "." && !("./" <= path) && !HasPart(path, "..")
  {
    SplitParts(path, "..");
    if path[0] == '/' {
      assert Components(path)[0] == RootDir && RootDir in Components(path);
    } else {
      var parts := Split(path);
      NormalParts(parts, true);
      StartsWithDot(path);
    }
  }

  lemma StartsWithDot(path: string)
    ensures Split(path)[0] == "." <==> path == "." || "./" <= path
  {
    if path != "" && path[0] == '.' {
      assert path == "." + path[1..];
      if path[1..] == "" || path[1] == '/' {
        FirstPart(".", path[1..]);
      } else {
        assert Split(path[1..])[0] != "";
      }
    }
  }

  /** `Path::file_name`, or the whole text when there is none. */
  function FileName(path: string): string {
    var parts := Components(path);
    if parts != [] && parts[|parts| - 1].Normal? then parts[|parts| - 1].name else path
  }
}
