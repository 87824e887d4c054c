/** The session script's fingerprint (backend/playout/script_cache.py): a worklist over the script
    and every file it includes, against the depth-first order it stands for.

    The folder is a map from resolved path to text; `includes` gives the resolved paths a text
    includes, in order. The digest is named by what it was updated with. */
module ScriptFingerprints {
  import opened Wrappers

  type Path = string
  type Text = string

  datatype Entry = Entry(path: Path, text: Text)

  type Digest = seq<Entry>

  type Includes = (Path, Text) -> seq<Path>

  function Paths(digest: Digest): set<Path> {
    set k | 0 <= k < |digest| :: digest[k].path
  }

  /** How many files of the folder are not done. */
  function Unread(folder: map<Path, Text>, done: Digest): nat {
    |folder.Keys - Paths(done)|
  }

  lemma {:induction false} PathsGrow(before: Digest, after: Digest)
    requires before <= after
    ensures Paths(before) <= Paths(after)
    ensures forall k :: 0 <= k < |after| ==> after[k].path in Paths(after)
  {
    forall path | path in Paths(before) ensures path in Paths(after) {
      var k :| 0 <= k < |before| && before[k].path == path;
      assert after[k].path == path;
    }
  }

  lemma {:induction false} SubsetIsSmaller(few: set<Path>, many: set<Path>)
    requires few <= many
    ensures |few| <= |many|
  {
    assert many == few + (many - few);
  }

  lemma {:induction false} FewerLeft(all: set<Path>, before: set<Path>, after: set<Path>, path: Path)
    requires before <= after && path in all && path !in before && path in after
    ensures |all - after| < |all - before|
  {
    assert path in all - before && path !in all - after;
    assert all - after <= (all - before) - {path};
    SubsetIsSmaller(all - after, (all - before) - {path});
  }

  lemma {:induction false} PathsOfEntered(done: Digest, entry: Entry)
    ensures Paths(done + [entry]) == Paths(done) + {entry.path}
  {
    var entered := done + [entry];
    PathsGrow(done, entered);
    assert entered[|done|] == entry;
  }

  lemma {:induction false} EnteringLeavesFewer(folder: map<Path, Text>, done: Digest, path: Path, inner: Digest)
    requires path in folder && path !in Paths(done)
    requires done + [Entry(path, folder[path])] <= inner
    ensures Unread(folder, inner) < Unread(folder, done)
  {
    PathsOfEntered(done, Entry(path, folder[path]));
    PathsGrow(done + [Entry(path, folder[path])], inner);
    FewerLeft(folder.Keys, Paths(done), Paths(inner), path);
  }

  /** Visit some paths in order, each before what it includes and that before its successors, and
      none twice; the first path that cannot be read otherwise. */
  function Visit(folder: map<Path, Text>, includes: Includes, list: seq<Path>, done: Digest)
    : (visited: Result<Digest, Path>)
    ensures visited.Ok? ==> done <= visited.value
    decreases Unread(folder, done), |list|
  {
    if list == [] then Ok(done)
    else if list[0] in Paths(done) then Visit(folder, includes, list[1..], done)
    else if list[0] !in folder then Err(list[0])
    else
      var text := folder[list[0]];
      var entered := done + [Entry(list[0], text)];
      EnteringLeavesFewer(folder, done, list[0], entered);
      match Visit(folder, includes, includes(list[0], text), entered)
      case Err(path) => Err(path)
      case Ok(inner) =>
        EnteringLeavesFewer(folder, done, list[0], inner);
        Visit(folder, includes, list[1..], inner)
  }

  function Fingerprint(folder: map<Path, Text>, includes: Includes, script: Path): Result<Digest, Path> {
    Visit(folder, includes, [script], [])
  }

  function Reversed(paths: seq<Path>): (r: seq<Path>)
    ensures |r| == |paths|
  {
    if paths == [] then [] else [paths[|paths| - 1]] + Reversed(paths[..|paths| - 1])
  }

  lemma {:induction false} ReversedAppends(a: seq<Path>, b: seq<Path>)
    ensures Reversed(a + b) == Reversed(b) + Reversed(a)
  {
    if b == [] {
      assert a + b == a;
    } else {
      var front, last := b[..|b| - 1], b[|b| - 1];
      ReversedAppends(a, front);
      assert (a + b)[..|a + b| - 1] == a + front;
      assert Reversed(a + b) == [last] + Reversed(a + front);
      assert Reversed(b) == [last] + Reversed(front);
    }
  }

  lemma {:induction false} ReversedTwice(a: seq<Path>)
    ensures Reversed(Reversed(a)) == a
  {
    if a == [] {
    } else {
      var front := a[..|a| - 1];
      ReversedTwice(front);
      ReversedAppends([a[|a| - 1]], Reversed(front));
      assert Reversed([a[|a| - 1]]) == [a[|a| - 1]];
    }
  }

  /** Visiting two lists one after the other is visiting them as one. */
  lemma {:induction false} VisitAppends(folder: map<Path, Text>, includes: Includes,
                                        a: seq<Path>, b: seq<Path>, done: Digest)
    ensures Visit(folder, includes, a + b, done)
      == match Visit(folder, includes, a, done)
         case Err(path) => Err(path)
         case Ok(visited) => Visit(folder, includes, b, visited)
    decreases Unread(folder, done), |a|
  {
    if a == [] {
      assert a + b == b;
    } else {
      assert (a + b)[1..] == a[1..] + b;
      if a[0] in Paths(done) {
        VisitAppends(folder, includes, a[1..], b, done);
      } else if a[0] in folder {
        var entered := done + [Entry(a[0], folder[a[0]])];
        var inner := Visit(folder, includes, includes(a[0], folder[a[0]]), entered);
        if inner.Ok? {
          EnteringLeavesFewer(folder, done, a[0], inner.value);
          VisitAppends(folder, includes, a[1..], b, inner.value);
        }
      }
    }
  }

  /** The fingerprint, by a stack of pending paths: the top is read unless it was seen, and what it
      includes is pushed in reverse. It ends on any folder, cycles included. */
  method ScriptFingerprint(folder: map<Path, Text>, includes: Includes, script: Path)
    returns (fingerprint: Result<Digest, Path>)
    ensures fingerprint == Fingerprint(folder, includes, script)
  {
    var digest: Digest := [];
    var pending := [script];
    assert Reversed(pending) == [script];
    var seen: set<Path> := {};
    while pending != []
      invariant seen == Paths(digest)
      invariant Fingerprint(folder, includes, script) == Visit(folder, includes, Reversed(pending), digest)
      decreases |folder.Keys - seen|, |pending|
    {
      var current := pending[|pending| - 1];
      ghost var stack := Reversed(pending);
      pending := pending[..|pending| - 1];
      assert stack[1..] == Reversed(pending);
      if current !in seen {
        if current !in folder {
          return Err(current);
        }
        var text := folder[current];
        ghost var done := digest;
        seen := seen + {current};
        digest := digest + [Entry(current, text)];
        PathsOfEntered(done, digest[|done|]);
        EnteringLeavesFewer(folder, done, current, digest);
        ghost var rest := pending;
        pending := pending + Reversed(includes(current, text));
        ReversedAppends(rest, Reversed(includes(current, text)));
        ReversedTwice(includes(current, text));
        VisitAppends(folder, includes, includes(current, text), Reversed(rest), digest);
      }
    }
    return Ok(digest);
  }

  // ---- What a fingerprint covers ----

  ghost predicate AllIn(list: seq<Path>, paths: set<Path>) {
    forall k :: 0 <= k < |list| ==> list[k] in paths
  }

  /** A set of paths that holds what each of its readable files includes. */
  ghost predicate Closed(folder: map<Path, Text>, includes: Includes, paths: set<Path>) {
    forall path :: path in paths && path in folder ==> AllIn(includes(path, folder[path]), paths)
  }

  /** What a visit adds to a digest: each file once, as the folder has it, with all it includes. */
  ghost predicate Adds(folder: map<Path, Text>, includes: Includes, done: Digest, visited: Digest) {
    && done <= visited
    && (forall k :: |done| <= k < |visited| ==>
          && visited[k].path in folder && folder[visited[k].path] == visited[k].text
          && visited[k].path !in Paths(visited[..k])
          && AllIn(includes(visited[k].path, visited[k].text), Paths(visited)))
  }

  lemma {:induction false} AddsComposes(folder: map<Path, Text>, includes: Includes, a: Digest, b: Digest, c: Digest)
    requires Adds(folder, includes, a, b) && Adds(folder, includes, b, c)
    ensures Adds(folder, includes, a, c)
  {
    PathsGrow(b, c);
    forall k | |a| <= k < |b| ensures b[k] == c[k] && b[..k] == c[..k] {
    }
  }

  lemma {:induction false} AddsEntry(
      folder: map<Path, Text>, includes: Includes, done: Digest, entry: Entry, visited: Digest)
    requires entry.path in folder && folder[entry.path] == entry.text && entry.path !in Paths(done)
    requires Adds(folder, includes, done + [entry], visited)
    requires AllIn(includes(entry.path, entry.text), Paths(visited))
    ensures Adds(folder, includes, done, visited)
  {
    assert visited[..|done|] == done;
    assert visited[|done|] == entry;
  }

  lemma {:induction false} AllInRest(list: seq<Path>, paths: set<Path>)
    requires list != [] && list[0] in paths && AllIn(list[1..], paths)
    ensures AllIn(list, paths)
  {
    forall k | 0 <= k < |list| ensures list[k] in paths {
      if k > 0 {
        assert list[1..][k - 1] == list[k];
      }
    }
  }

  lemma {:induction false} EnteredAdds(folder: map<Path, Text>, includes: Includes, list: seq<Path>, done: Digest,
                    entry: Entry, inner: Digest, result: Digest)
    requires list != [] && entry.path == list[0] && entry.path !in Paths(done)
    requires entry.path in folder && folder[entry.path] == entry.text
    requires Adds(folder, includes, done + [entry], inner) && AllIn(includes(entry.path, entry.text), Paths(inner))
    requires Adds(folder, includes, inner, result) && AllIn(list[1..], Paths(result))
    ensures Adds(folder, includes, done, result) && AllIn(list, Paths(result))
  {
    AddsEntry(folder, includes, done, entry, inner);
    AddsComposes(folder, includes, done, inner, result);
    assert result[|done|] == entry;
    AllInRest(list, Paths(result));
  }

  /** A visit adds every file of its list that was not done, and what those include. */
  lemma {:induction false} VisitAdds(folder: map<Path, Text>, includes: Includes, list: seq<Path>, done: Digest,
                                     result: Digest)
    requires Visit(folder, includes, list, done) == Ok(result)
    ensures Adds(folder, includes, done, result) && AllIn(list, Paths(result))
    decreases Unread(folder, done), |list|
  {
    if list == [] {
    } else {
      if list[0] in Paths(done) {
        VisitAdds(folder, includes, list[1..], done, result);
        PathsGrow(done, result);
        AllInRest(list, Paths(result));
      } else {
        var entry := Entry(list[0], folder[list[0]]);
        var within := includes(entry.path, entry.text);
        var entered := done + [entry];
        var inner := Visit(folder, includes, within, entered).value;
        EnteringLeavesFewer(folder, done, list[0], entered);
        VisitAdds(folder, includes, within, entered, inner);
        EnteringLeavesFewer(folder, done, list[0], inner);
        VisitAdds(folder, includes, list[1..], inner, result);
        EnteredAdds(folder, includes, list, done, entry, inner, result);
      }
    }
  }

  ghost predicate NewIn(done: Digest, visited: Digest, paths: set<Path>) {
    forall k :: |done| <= k < |visited| ==> visited[k].path in paths
  }

  lemma {:induction false} NewInComposes(done: Digest, entry: Entry, inner: Digest, visited: Digest, paths: set<Path>)
    requires done + [entry] <= inner <= visited && entry.path in paths
    requires NewIn(done + [entry], inner, paths) && NewIn(inner, visited, paths)
    ensures NewIn(done, visited, paths)
  {
    assert visited[|done|] == inner[|done|] == entry;
  }

  /** A visit stays within every closed set that holds its list, and so does the path it fails on. */
  lemma {:induction false} VisitWithin(folder: map<Path, Text>, includes: Includes, list: seq<Path>, done: Digest,
                                       paths: set<Path>)
    requires Closed(folder, includes, paths) && AllIn(list, paths)
    ensures match Visit(folder, includes, list, done)
      case Ok(visited) => NewIn(done, visited, paths)
      case Err(path) => path in paths && path !in folder
    decreases Unread(folder, done), |list|
  {
    if list == [] {
    } else {
      assert AllIn(list[1..], paths);
      if list[0] in Paths(done) {
        VisitWithin(folder, includes, list[1..], done, paths);
        assert Visit(folder, includes, list, done) == Visit(folder, includes, list[1..], done);
      } else if list[0] in folder {
        var entry := Entry(list[0], folder[list[0]]);
        var entered := done + [entry];
        var inner := Visit(folder, includes, includes(entry.path, entry.text), entered);
        EnteringLeavesFewer(folder, done, list[0], entered);
        VisitWithin(folder, includes, includes(entry.path, entry.text), entered, paths);
        if inner.Ok? {
          EnteringLeavesFewer(folder, done, list[0], inner.value);
          VisitWithin(folder, includes, list[1..], inner.value, paths);
          var result := Visit(folder, includes, list, done);
          assert result == Visit(folder, includes, list[1..], inner.value);
          if result.Ok? {
            NewInComposes(done, entry, inner.value, result.value, paths);
          }
        }
      }
    }
  }

  /** A fingerprint hashes each file that the script reaches exactly once and nothing else: its
      paths are distinct, and are the smallest closed set that holds the script. */
  lemma {:induction false} FingerprintIsReach(folder: map<Path, Text>, includes: Includes, script: Path, digest: Digest)
    requires Fingerprint(folder, includes, script) == Ok(digest)
    ensures script in Paths(digest) && Closed(folder, includes, Paths(digest))
    ensures forall paths :: script in paths && Closed(folder, includes, paths) ==> Paths(digest) <= paths
    ensures forall i, j :: 0 <= i < j < |digest| ==> digest[i].path != digest[j].path
    ensures forall k :: 0 <= k < |digest| ==>
      digest[k].path in folder && digest[k].text == folder[digest[k].path]
  {
    VisitAdds(folder, includes, [script], [], digest);
    assert [script][0] in Paths(digest);
    forall path | path in Paths(digest) && path in folder
      ensures AllIn(includes(path, folder[path]), Paths(digest))
    {
      var k :| 0 <= k < |digest| && digest[k].path == path;
    }
    forall paths | script in paths && Closed(folder, includes, paths) ensures Paths(digest) <= paths {
      VisitWithin(folder, includes, [script], [], paths);
      assert NewIn([], digest, paths);
    }
    forall i, j | 0 <= i < j < |digest| ensures digest[i].path != digest[j].path {
      assert digest[..j][i] == digest[i];
    }
  }

  /** There is no fingerprint exactly when the script reaches a file that cannot be read. */
  lemma {:induction false} UnreadableIsReached(folder: map<Path, Text>, includes: Includes, script: Path)
    ensures Fingerprint(folder, includes, script).Err? <==>
      forall paths :: script in paths && Closed(folder, includes, paths) ==> !(paths <= folder.Keys)
  {
    var fingerprint := Fingerprint(folder, includes, script);
    if fingerprint.Err? {
      forall paths | script in paths && Closed(folder, includes, paths) ensures !(paths <= folder.Keys) {
        VisitWithin(folder, includes, [script], [], paths);
        assert fingerprint.error in paths && fingerprint.error !in folder.Keys;
      }
    } else {
      FingerprintIsReach(folder, includes, script, fingerprint.value);
      assert Paths(fingerprint.value) <= folder.Keys;
    }
  }

  lemma {:induction false} VisitAgrees(folder: map<Path, Text>, other: map<Path, Text>, includes: Includes,
                                       list: seq<Path>, done: Digest, visited: Digest)
    requires Visit(folder, includes, list, done) == Ok(visited)
    requires forall k :: |done| <= k < |visited| ==>
      visited[k].path in other && other[visited[k].path] == visited[k].text
    ensures Visit(other, includes, list, done) == Ok(visited)
    decreases Unread(folder, done), |list|
  {
    if list == [] {
    } else {
      if list[0] in Paths(done) {
        VisitAgrees(folder, other, includes, list[1..], done, visited);
      } else {
        var entry := Entry(list[0], folder[list[0]]);
        var entered := done + [entry];
        var inner := Visit(folder, includes, includes(entry.path, entry.text), entered).value;
        EnteringLeavesFewer(folder, done, list[0], entered);
        EnteringLeavesFewer(folder, done, list[0], inner);
        assert inner <= visited;
        assert visited[|done|] == inner[|done|] == entry;
        VisitAgrees(folder, other, includes, includes(entry.path, entry.text), entered, inner);
        VisitAgrees(folder, other, includes, list[1..], inner, visited);
      }
    }
  }

  /** The fingerprint changes exactly when a file it covers does: another folder has the same one if
      and only if every file the script reaches has the same text there. */
  lemma {:induction false} FingerprintIdentifies(folder: map<Path, Text>, other: map<Path, Text>, includes: Includes,
                              script: Path, digest: Digest)
    requires Fingerprint(folder, includes, script) == Ok(digest)
    ensures Fingerprint(other, includes, script) == Ok(digest) <==>
      forall path :: path in Paths(digest) ==> path in folder && path in other && other[path] == folder[path]
  {
    FingerprintIsReach(folder, includes, script, digest);
    PathsGrow(digest, digest);
    if Fingerprint(other, includes, script) == Ok(digest) {
      FingerprintIsReach(other, includes, script, digest);
    } else if forall path :: path in Paths(digest) ==> path in folder && path in other && other[path] == folder[path] {
      VisitAgrees(folder, other, includes, [script], [], digest);
    }
  }

  // ---- The order files are hashed in ----

  /** After a file comes the first of its includes that was not hashed before it, when there is one. */
  ghost predicate IncludeFollows(includes: Includes, visited: Digest, k: nat)
    requires k < |visited|
  {
    var within := includes(visited[k].path, visited[k].text);
    var seen := Paths(visited[..k + 1]);
    forall j :: 0 <= j < |within| && within[j] !in seen && AllIn(within[..j], seen)
      ==> k + 1 < |visited| && visited[k + 1].path == within[j]
  }

  ghost predicate IncludesFollow(includes: Includes, from: nat, visited: Digest) {
    forall k :: from <= k < |visited| ==> IncludeFollows(includes, visited, k)
  }

  /** A visit goes on with the first path of its list that is not done. */
  lemma {:induction false} FirstUnseenIsNext(
      folder: map<Path, Text>, includes: Includes, list: seq<Path>, done: Digest, visited: Digest, j: nat)
    requires Visit(folder, includes, list, done) == Ok(visited)
    requires j < |list| && list[j] !in Paths(done) && AllIn(list[..j], Paths(done))
    ensures |done| < |visited| && visited[|done|].path == list[j]
    decreases |list|
  {
    if j == 0 {
      var entered := done + [Entry(list[0], folder[list[0]])];
      var inner := Visit(folder, includes, includes(list[0], folder[list[0]]), entered).value;
      assert entered <= inner <= visited;
      assert visited[|done|] == entered[|done|];
    } else {
      assert list[0] == list[..j][0];
      assert list[1..][..j - 1] == list[..j][1..];
      FirstUnseenIsNext(folder, includes, list[1..], done, visited, j - 1);
    }
  }

  lemma {:induction false} FollowsInPrefix(includes: Includes, inner: Digest, visited: Digest, k: nat)
    requires inner <= visited && k < |inner| && IncludeFollows(includes, inner, k)
    ensures IncludeFollows(includes, visited, k)
  {
    assert visited[..k + 1] == inner[..k + 1];
  }

  /** A file just hashed is followed by the first of its includes that is new. */
  lemma {:induction false} EnteredFollows(
      folder: map<Path, Text>, includes: Includes, done: Digest, entry: Entry, inner: Digest)
    requires Visit(folder, includes, includes(entry.path, entry.text), done + [entry]) == Ok(inner)
    ensures IncludeFollows(includes, inner, |done|)
  {
    var within := includes(entry.path, entry.text);
    var entered := done + [entry];
    assert inner[|done|] == entered[|done|] == entry && inner[..|done| + 1] == entered;
    forall j | 0 <= j < |within| && within[j] !in Paths(entered) && AllIn(within[..j], Paths(entered))
      ensures |done| + 1 < |inner| && inner[|done| + 1].path == within[j]
    {
      FirstUnseenIsNext(folder, includes, within, entered, inner, j);
    }
  }

  lemma {:induction false} FollowsComposes(includes: Includes, from: nat, inner: Digest, visited: Digest)
    requires inner <= visited && from < |inner|
    requires IncludeFollows(includes, inner, from) && IncludesFollow(includes, from + 1, inner)
    requires IncludesFollow(includes, |inner|, visited)
    ensures IncludesFollow(includes, from, visited)
  {
    forall k | from <= k < |visited| ensures IncludeFollows(includes, visited, k) {
      if k < |inner| {
        FollowsInPrefix(includes, inner, visited, k);
      }
    }
  }

  /** In every visit each file is followed by the first of its includes that is new. */
  lemma {:induction false} VisitIncludesFollow(
      folder: map<Path, Text>, includes: Includes, list: seq<Path>, done: Digest, visited: Digest)
    requires Visit(folder, includes, list, done) == Ok(visited)
    ensures IncludesFollow(includes, |done|, visited)
    decreases Unread(folder, done), |list|
  {
    if list == [] {
    } else if list[0] in Paths(done) {
      VisitIncludesFollow(folder, includes, list[1..], done, visited);
    } else {
      var entry := Entry(list[0], folder[list[0]]);
      var within := includes(entry.path, entry.text);
      var entered := done + [entry];
      var inner := Visit(folder, includes, within, entered).value;
      EnteringLeavesFewer(folder, done, list[0], entered);
      VisitIncludesFollow(folder, includes, within, entered, inner);
      EnteringLeavesFewer(folder, done, list[0], inner);
      VisitIncludesFollow(folder, includes, list[1..], inner, visited);
      EnteredFollows(folder, includes, done, entry, inner);
      FollowsComposes(includes, |done|, inner, visited);
    }
  }

  /** The script is hashed first, and after each file the first of its includes not hashed yet: depth
      first, in the order the includes are written. */
  lemma {:induction false} DepthFirst(folder: map<Path, Text>, includes: Includes, script: Path, digest: Digest)
    requires Fingerprint(folder, includes, script) == Ok(digest)
    ensures digest != [] && digest[0].path == script && IncludesFollow(includes, 0, digest)
  {
    FirstUnseenIsNext(folder, includes, [script], [], digest, 0);
    VisitIncludesFollow(folder, includes, [script], [], digest);
  }
}
