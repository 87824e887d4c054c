/** A library's folders on disk and the bottom-up walk over them
    (backend/services/folder_hash_service.py).

    A path is its names below an anchor; `Spelled` is the canonical string, and the separator test on
    strings is shown to be the prefix test on names. */
module FolderTrees {
  import opened Wrappers

  type Name = string
  type Path = seq<Name>
  type Hash = string

  const SEPARATOR: char := '/'

  // ---- Paths ----

  ghost predicate IsName(name: Name) {
    name != "" && SEPARATOR !in name
  }

  ghost predicate Named(path: Path) {
    forall k :: 0 <= k < |path| ==> IsName(path[k])
  }

  /** The names, with separators between them. */
  function Joined(path: Path): string {
    if path == [] then ""
    else if |path| == 1 then path[0]
    else path[0] + [SEPARATOR] + Joined(path[1..])
  }

  /** A canonical path string: an anchor that ends with the separator, then the names. */
  function Spelled(anchor: string, path: Path): string {
    anchor + Joined(path)
  }

  predicate StartsWith(text: string, prefix: string) {
    |prefix| <= |text| && text[..|prefix|] == prefix
  }

  predicate EndsWithSeparator(text: string) {
    text != "" && text[|text| - 1] == SEPARATOR
  }

  /** Whether a path string names an ancestor's folder or one below it. */
  predicate IsWithin(path: string, ancestor: string) {
    var prefix := if EndsWithSeparator(ancestor) then ancestor else ancestor + [SEPARATOR];
    path == ancestor || StartsWith(path, prefix)
  }

  lemma {:induction false} JoinedEndsInName(path: Path)
    requires Named(path) && path != []
    ensures Joined(path) != "" && !EndsWithSeparator(Joined(path))
    ensures Joined(path)[0] == path[0][0]
  {
    assert IsName(path[0]);
    if |path| > 1 {
      JoinedEndsInName(path[1..]);
    }
  }

  /** A name and what follows it are read back by the first separator. */
  lemma {:induction false} FirstNameIsRead(a: Name, b: Name, aRest: string, bRest: string)
    requires IsName(a) && IsName(b)
    requires StartsWith(b + [SEPARATOR] + bRest, a + [SEPARATOR] + aRest)
    ensures a == b && StartsWith(bRest, aRest)
  {
    var whole, prefix := b + [SEPARATOR] + bRest, a + [SEPARATOR] + aRest;
    assert forall i :: 0 <= i < |prefix| ==> whole[..|prefix|][i] == prefix[i] == whole[i];
    assert forall i :: 0 <= i < |a| ==> prefix[i] == a[i];
    assert forall i :: 0 <= i < |b| ==> whole[i] == b[i];
    assert prefix[|a|] == SEPARATOR == whole[|b|];
    assert a == prefix[..|a|] == whole[..|a|] == b;
    assert aRest == prefix[|a| + 1..] == whole[|a| + 1..|prefix|];
    assert bRest == whole[|a| + 1..];
  }

  lemma {:induction false} OneNameIsNotBelow(name: Name, text: string)
    requires IsName(name)
    ensures !StartsWith(name, text + [SEPARATOR])
  {
    assert |text| + 1 <= |name| ==> name[..|text| + 1][|text|] == name[|text|];
  }

  lemma {:induction false} OneNameBelow(name: Name, ancestor: Name, rest: string)
    requires IsName(name) && IsName(ancestor)
    ensures StartsWith(name + [SEPARATOR] + rest, ancestor + [SEPARATOR]) <==> ancestor == name
  {
    assert ancestor + [SEPARATOR] + "" == ancestor + [SEPARATOR];
    if StartsWith(name + [SEPARATOR] + rest, ancestor + [SEPARATOR]) {
      FirstNameIsRead(ancestor, name, "", rest);
    }
  }

  lemma {:induction false} NamesBelow(name: Name, ancestor: Name, rest: string, below: string)
    requires IsName(name) && IsName(ancestor)
    ensures StartsWith(name + [SEPARATOR] + rest, ancestor + [SEPARATOR] + below + [SEPARATOR])
      <==> ancestor == name && StartsWith(rest, below + [SEPARATOR])
  {
    var prefix := ancestor + [SEPARATOR] + (below + [SEPARATOR]);
    var whole := name + [SEPARATOR] + rest;
    assert ancestor + [SEPARATOR] + below + [SEPARATOR] == prefix;
    if StartsWith(whole, prefix) {
      FirstNameIsRead(ancestor, name, below + [SEPARATOR], rest);
    }
    if ancestor == name && StartsWith(rest, below + [SEPARATOR]) {
      assert whole[..|prefix|] == name + [SEPARATOR] + rest[..|below| + 1];
    }
  }

  lemma {:induction false} JoinedWithin(path: Path, ancestor: Path)
    requires Named(path) && Named(ancestor) && ancestor != []
    ensures StartsWith(Joined(path), Joined(ancestor) + [SEPARATOR]) <==> ancestor < path
    decreases |ancestor|
  {
    JoinedEndsInName(ancestor);
    assert IsName(ancestor[0]);
    if path == [] {
    } else if |path| == 1 {
      OneNameIsNotBelow(path[0], Joined(ancestor));
    } else {
      assert IsName(path[0]);
      var rest := Joined(path[1..]);
      if |ancestor| == 1 {
        JoinedEndsInName(path[1..]);
        OneNameBelow(path[0], ancestor[0], rest);
      } else {
        JoinedWithin(path[1..], ancestor[1..]);
        NamesBelow(path[0], ancestor[0], rest, Joined(ancestor[1..]));
        assert ancestor < path <==> ancestor[0] == path[0] && ancestor[1..] < path[1..];
      }
    }
  }

  lemma {:induction false} ManyNamesHaveSeparator(path: Path)
    requires Named(path) && path != []
    ensures SEPARATOR in Joined(path) <==> |path| > 1
  {
    assert IsName(path[0]);
    if |path| > 1 {
      assert Joined(path)[|path[0]|] == SEPARATOR;
    }
  }

  lemma {:induction false} JoinedIsUnique(a: Path, b: Path)
    requires Named(a) && Named(b) && Joined(a) == Joined(b)
    ensures a == b
  {
    if a == [] || b == [] {
      if a != [] {
        JoinedEndsInName(a);
      }
      if b != [] {
        JoinedEndsInName(b);
      }
    } else {
      assert IsName(a[0]) && IsName(b[0]);
      ManyNamesHaveSeparator(a);
      ManyNamesHaveSeparator(b);
      if |a| > 1 && |b| > 1 {
        assert StartsWith(Joined(b), Joined(a));
        FirstNameIsRead(a[0], b[0], Joined(a[1..]), Joined(b[1..]));
        assert Joined(a[1..]) == Joined(a)[|a[0]| + 1..] == Joined(b[1..]);
        JoinedIsUnique(a[1..], b[1..]);
        assert a == [a[0]] + a[1..] && b == [b[0]] + b[1..];
      }
    }
  }

  lemma {:induction false} StartsWithAnchor(anchor: string, text: string, prefix: string)
    ensures StartsWith(anchor + text, anchor + prefix) <==> StartsWith(text, prefix)
  {
    if |prefix| <= |text| {
      assert (anchor + text)[..|anchor + prefix|] == anchor + text[..|prefix|];
      assert (anchor + prefix)[|anchor|..] == prefix && (anchor + text[..|prefix|])[|anchor|..] == text[..|prefix|];
    }
  }

  /** On canonical strings under one anchor, the separator test is the prefix test on names: a folder
      named like the start of its neighbour's name is not taken for its parent. */
  lemma {:induction false} WithinIsPrefix(anchor: string, path: Path, ancestor: Path)
    requires EndsWithSeparator(anchor) && Named(path) && Named(ancestor)
    ensures IsWithin(Spelled(anchor, path), Spelled(anchor, ancestor)) <==> ancestor <= path
  {
    if ancestor == [] {
      assert Spelled(anchor, ancestor) == anchor;
      assert Spelled(anchor, path)[..|anchor|] == anchor;
    } else {
      JoinedEndsInName(ancestor);
      var last := Joined(ancestor)[|Joined(ancestor)| - 1];
      assert Spelled(anchor, ancestor)[|Spelled(anchor, ancestor)| - 1] == last;
      assert Spelled(anchor, ancestor) + [SEPARATOR] == anchor + (Joined(ancestor) + [SEPARATOR]);
      StartsWithAnchor(anchor, Joined(path), Joined(ancestor) + [SEPARATOR]);
      JoinedWithin(path, ancestor);
      assert ancestor <= path <==> ancestor < path || path == ancestor;
      if Spelled(anchor, path) == Spelled(anchor, ancestor) {
        assert Joined(path) == Spelled(anchor, path)[|anchor|..];
        assert Joined(ancestor) == Spelled(anchor, ancestor)[|anchor|..];
        JoinedIsUnique(path, ancestor);
      }
    }
  }

  // ---- The walk ----

  /** A folder on disk: whether it can be listed, the hash of its own audio files, and the folders
      directly in it. */
  datatype Folder = Folder(name: Name, listable: bool, hash: Hash, children: seq<Folder>)

  datatype Found = Found(path: Path, hash: Hash)

  /** What a walk yields: folders bottom-up, and the folders it could not list. */
  datatype Walked = Walked(found: seq<Found>, unlistable: seq<Path>)

  function Plus(a: Walked, b: Walked): Walked {
    Walked(a.found + b.found, a.unlistable + b.unlistable)
  }

  function Walk(folder: Folder, path: Path): Walked
    decreases folder
  {
    if !folder.listable then Walked([], [path])
    else Plus(WalkAll(folder.children, path), Walked([Found(path, folder.hash)], []))
  }

  function WalkAll(children: seq<Folder>, path: Path): Walked
    decreases children
  {
    if children == [] then Walked([], [])
    else
      var last := children[|children| - 1];
      Plus(WalkAll(children[..|children| - 1], path), Walk(last, path + [last.name]))
  }

  // ---- What the walk sees of the disk ----

  /** Folders in one folder have different names. */
  ghost predicate Tidy(folder: Folder)
    decreases folder
  {
    TidyAll(folder.children)
  }

  ghost predicate TidyAll(children: seq<Folder>)
    decreases children
  {
    children == []
    || (var front, last := children[..|children| - 1], children[|children| - 1];
        TidyAll(front) && Tidy(last) && forall k :: 0 <= k < |front| ==> front[k].name != last.name)
  }

  /** The folder at some names below another, whether or not it can be seen. */
  function Lookup(folder: Folder, below: Path): Option<Folder>
    decreases folder
  {
    if below == [] then Some(folder) else LookupAll(folder.children, below)
  }

  function LookupAll(children: seq<Folder>, below: Path): Option<Folder>
    requires below != []
    decreases children
  {
    if children == [] then None
    else
      var last := children[|children| - 1];
      if last.name == below[0] then Lookup(last, below[1..])
      else LookupAll(children[..|children| - 1], below)
  }

  /** Whether a folder on the way to some names below another, or the one they name, cannot be
      listed. */
  function Hidden(folder: Folder, below: Path): bool
    decreases folder
  {
    !folder.listable || (below != [] && HiddenAll(folder.children, below))
  }

  function HiddenAll(children: seq<Folder>, below: Path): bool
    requires below != []
    decreases children
  {
    children != []
    && (var last := children[|children| - 1];
        if last.name == below[0] then Hidden(last, below[1..])
        else HiddenAll(children[..|children| - 1], below))
  }

  /** The hash a folder has on disk, where it can be seen. */
  function Seen(folder: Folder, below: Path): Option<Hash> {
    if Hidden(folder, below) then None
    else match Lookup(folder, below) case None => None case Some(found) => Some(found.hash)
  }

  function SeenAll(children: seq<Folder>, below: Path): Option<Hash>
    requires below != []
  {
    if HiddenAll(children, below) then None
    else match LookupAll(children, below) case None => None case Some(found) => Some(found.hash)
  }

  ghost predicate HasName(children: seq<Folder>, name: Name) {
    exists k :: 0 <= k < |children| && children[k].name == name
  }

  lemma {:induction false} NamelessIsUnseen(children: seq<Folder>, below: Path)
    requires below != [] && !HasName(children, below[0])
    ensures SeenAll(children, below) == None && !HiddenAll(children, below)
  {
    if children == [] {
    } else {
      NamelessIsUnseen(children[..|children| - 1], below);
    }
  }

  /** The walk finds exactly the folders that can be seen, with their hashes. */
  lemma {:induction false} WalkFinds(folder: Folder, path: Path, p: Path, hash: Hash)
    requires Tidy(folder)
    ensures Found(p, hash) in Walk(folder, path).found
      <==> path <= p && Seen(folder, p[|path|..]) == Some(hash)
    decreases folder
  {
    if folder.listable {
      WalkAllFinds(folder.children, path, p, hash);
      if path <= p && p[|path|..] == [] {
        assert p == path;
      }
      if path < p {
        assert Seen(folder, p[|path|..]) == SeenAll(folder.children, p[|path|..]);
      }
    }
  }

  lemma {:induction false} BelowChild(path: Path, name: Name, p: Path)
    requires path < p
    ensures path + [name] <= p <==> p[|path|] == name
    ensures p[|path|..][0] == p[|path|] && p[|path|..][1..] == p[|path| + 1..]
  {
    if p[|path|] == name {
      assert p[..|path| + 1] == path + [name];
    }
  }

  lemma {:induction false} WalkAllFinds(children: seq<Folder>, path: Path, p: Path, hash: Hash)
    requires TidyAll(children)
    ensures Found(p, hash) in WalkAll(children, path).found
      <==> path < p && SeenAll(children, p[|path|..]) == Some(hash)
    decreases children
  {
    if children == [] {
    } else {
      var front, last := children[..|children| - 1], children[|children| - 1];
      WalkAllFinds(front, path, p, hash);
      WalkFinds(last, path + [last.name], p, hash);
      if path < p {
        BelowChild(path, last.name, p);
        if p[|path|] == last.name {
          NamelessIsUnseen(front, p[|path|..]);
        }
      }
    }
  }

  ghost predicate UnderAny(p: Path, bad: seq<Path>) {
    exists k :: 0 <= k < |bad| && bad[k] <= p
  }

  lemma {:induction false} UnderEither(p: Path, a: seq<Path>, b: seq<Path>)
    ensures UnderAny(p, a + b) <==> UnderAny(p, a) || UnderAny(p, b)
  {
    if UnderAny(p, a) {
      var k :| 0 <= k < |a| && a[k] <= p;
      assert (a + b)[k] == a[k];
    }
    if UnderAny(p, b) {
      var k :| 0 <= k < |b| && b[k] <= p;
      assert (a + b)[|a| + k] == b[k];
    }
  }

  /** The walk records exactly the folders it cannot list: a path below one is hidden, and no other. */
  lemma {:induction false} WalkHides(folder: Folder, path: Path, p: Path)
    requires Tidy(folder)
    ensures UnderAny(p, Walk(folder, path).unlistable) <==> path <= p && Hidden(folder, p[|path|..])
    decreases folder
  {
    if folder.listable {
      WalkAllHides(folder.children, path, p);
      assert Walk(folder, path).unlistable == WalkAll(folder.children, path).unlistable;
      if path <= p && p[|path|..] == [] {
        assert p == path;
      }
    } else {
      assert [path][0] == path;
    }
  }

  lemma {:induction false} WalkAllHides(children: seq<Folder>, path: Path, p: Path)
    requires TidyAll(children)
    ensures UnderAny(p, WalkAll(children, path).unlistable) <==> path < p && HiddenAll(children, p[|path|..])
    decreases children
  {
    if children == [] {
    } else {
      var front, last := children[..|children| - 1], children[|children| - 1];
      WalkAllHides(front, path, p);
      WalkHides(last, path + [last.name], p);
      UnderEither(p, WalkAll(front, path).unlistable, Walk(last, path + [last.name]).unlistable);
      if path < p {
        BelowChild(path, last.name, p);
        if p[|path|] == last.name {
          NamelessIsUnseen(front, p[|path|..]);
        }
      }
    }
  }

  // ---- The order of the walk ----

  function Parent(path: Path): Path {
    if path == [] then [] else path[..|path| - 1]
  }

  ghost predicate FoundAfter(found: seq<Found>, k: nat, path: Path) {
    exists j :: k < j < |found| && found[j].path == path
  }

  ghost predicate PathsDiffer(found: seq<Found>) {
    forall i, j :: 0 <= i < j < |found| ==> found[i].path != found[j].path
  }

  /** Every folder is found once, at or below the start, and before its parent. */
  ghost predicate BottomUp(found: seq<Found>, path: Path) {
    && PathsDiffer(found)
    && (forall k :: 0 <= k < |found| ==> path <= found[k].path)
    && (forall k :: 0 <= k < |found| && found[k].path != path ==> FoundAfter(found, k, Parent(found[k].path)))
  }

  ghost predicate BelowChildren(found: seq<Found>, k: nat, path: Path, children: seq<Folder>)
    requires k < |found|
  {
    && path < found[k].path && HasName(children, found[k].path[|path|])
    && (|found[k].path| == |path| + 1 || FoundAfter(found, k, Parent(found[k].path)))
  }

  /** The same of the folders in one folder, whose parent is still to come. */
  ghost predicate BottomUpAll(found: seq<Found>, path: Path, children: seq<Folder>) {
    PathsDiffer(found) && forall k :: 0 <= k < |found| ==> BelowChildren(found, k, path, children)
  }

  lemma {:induction false} RootFollows(below: seq<Found>, root: Found, path: Path, children: seq<Folder>)
    requires BottomUpAll(below, path, children) && root.path == path
    ensures BottomUp(below + [root], path)
  {
    var found := below + [root];
    forall k | 0 <= k < |below|
      ensures path < found[k].path && FoundAfter(found, k, Parent(found[k].path))
    {
      assert BelowChildren(below, k, path, children);
      if |below[k].path| == |path| + 1 {
        assert below[k].path[..|path|] == path;
        assert found[|below|] == root;
      } else {
        var j :| k < j < |below| && below[j].path == Parent(below[k].path);
        assert found[j] == below[j];
      }
    }
  }

  lemma {:induction false} WalkIsBottomUp(folder: Folder, path: Path)
    requires Tidy(folder)
    ensures BottomUp(Walk(folder, path).found, path)
    decreases folder
  {
    if folder.listable {
      WalkAllIsBottomUp(folder.children, path);
      RootFollows(WalkAll(folder.children, path).found, Found(path, folder.hash), path, folder.children);
    }
  }

  lemma {:induction false} DifferBySide(before: seq<Found>, after: seq<Found>, path: Path, name: Name)
    requires PathsDiffer(before) && PathsDiffer(after)
    requires forall k :: 0 <= k < |before| ==> |before[k].path| > |path| && before[k].path[|path|] != name
    requires forall k :: 0 <= k < |after| ==> |after[k].path| > |path| && after[k].path[|path|] == name
    ensures PathsDiffer(before + after)
  {
  }

  lemma {:induction false} ChildPath(path: Path, name: Name, p: Path)
    requires path + [name] <= p
    ensures path < p && p[|path|] == name
  {
    assert p[..|path| + 1] == path + [name];
    assert p[..|path|] == p[..|path| + 1][..|path|] == path;
    assert p[..|path| + 1][|path|] == name;
  }

  lemma {:induction false} ChildDiffers(
      front: seq<Folder>, last: Folder, path: Path, before: seq<Found>, after: seq<Found>)
    requires forall c :: 0 <= c < |front| ==> front[c].name != last.name
    requires BottomUpAll(before, path, front) && BottomUp(after, path + [last.name])
    ensures PathsDiffer(before + after)
  {
    forall k | 0 <= k < |before| ensures |before[k].path| > |path| && before[k].path[|path|] != last.name {
      assert BelowChildren(before, k, path, front);
    }
    forall n | 0 <= n < |after| ensures |after[n].path| > |path| && after[n].path[|path|] == last.name {
      ChildPath(path, last.name, after[n].path);
    }
    DifferBySide(before, after, path, last.name);
  }

  lemma {:induction false} EarlierStays(
      front: seq<Folder>, last: Folder, path: Path, before: seq<Found>, after: seq<Found>, k: nat)
    requires forall c :: 0 <= c < |front| ==> front[c].name != last.name
    requires k < |before| && BelowChildren(before, k, path, front)
    ensures BelowChildren(before + after, k, path, front + [last])
    ensures |before[k].path| > |path| && before[k].path[|path|] != last.name
  {
    var found := before + after;
    assert found[k] == before[k];
    var c :| 0 <= c < |front| && front[c].name == before[k].path[|path|];
    assert (front + [last])[c] == front[c];
    if |before[k].path| != |path| + 1 {
      var j :| k < j < |before| && before[j].path == Parent(before[k].path);
      assert found[j] == before[j];
    }
  }

  lemma {:induction false} LaterShifts(
      front: seq<Folder>, last: Folder, path: Path, before: seq<Found>, after: seq<Found>, n: nat)
    requires BottomUp(after, path + [last.name]) && n < |after|
    ensures BelowChildren(before + after, |before| + n, path, front + [last])
  {
    var found := before + after;
    assert found[|before| + n] == after[n];
    ChildPath(path, last.name, after[n].path);
    assert (front + [last])[|front|] == last;
    if after[n].path != path + [last.name] {
      var j :| n < j < |after| && after[j].path == Parent(after[n].path);
      assert found[|before| + j] == after[j];
    }
  }

  lemma {:induction false} ChildFollows(
      front: seq<Folder>, last: Folder, path: Path, before: seq<Found>, after: seq<Found>)
    requires forall c :: 0 <= c < |front| ==> front[c].name != last.name
    requires BottomUpAll(before, path, front) && BottomUp(after, path + [last.name])
    ensures BottomUpAll(before + after, path, front + [last])
  {
    forall k | 0 <= k < |before| + |after| ensures BelowChildren(before + after, k, path, front + [last]) {
      if k < |before| {
        EarlierStays(front, last, path, before, after, k);
      } else {
        LaterShifts(front, last, path, before, after, k - |before|);
      }
    }
    ChildDiffers(front, last, path, before, after);
  }

  lemma {:induction false} WalkAllIsBottomUp(children: seq<Folder>, path: Path)
    requires TidyAll(children)
    ensures BottomUpAll(WalkAll(children, path).found, path, children)
    decreases children
  {
    if children == [] {
    } else {
      var front, last := children[..|children| - 1], children[|children| - 1];
      WalkAllIsBottomUp(front, path);
      WalkIsBottomUp(last, path + [last.name]);
      ChildFollows(front, last, path, WalkAll(front, path).found, Walk(last, path + [last.name]).found);
      assert children == front + [last];
    }
  }
}
