/** What polls report, over whole disks and from one poll to the next. */
module FolderHashLaws {
  import opened Wrappers
  import opened FolderTrees
  import opened FolderHashes

  // ---- New rows ----

  lemma {:induction false} AddedIsValid(known: Known, found: Found, firstRun: bool)
    requires Valid(known)
    ensures Valid(Added(known, found, firstRun))
  {
    var next := Added(known, found, firstRun);
    if found.path !in known.rows {
      assert next.order[|known.order|] == found.path;
      forall p | p in next.rows ensures p in next.order {
        if p != found.path {
          assert p in known.order;
        }
      }
    }
  }

  lemma {:induction false} SyncedIsValid(known: Known, found: seq<Found>, firstRun: bool)
    requires Valid(known)
    ensures Valid(Synced(known, found, firstRun))
    decreases |found|
  {
    if found == [] {
    } else {
      AddedIsValid(known, found[|found| - 1], firstRun);
      SyncedIsValid(Added(known, found[|found| - 1], firstRun), found[..|found| - 1], firstRun);
    }
  }

  ghost predicate ParentsReady(rows: map<Path, Row>, found: seq<Found>, root: Path) {
    forall k :: 0 <= k < |found| && found[k].path != root ==>
      FoundAfter(found, k, Parent(found[k].path)) || Parent(found[k].path) in rows
  }

  lemma {:induction false} ParentsStayReady(known: Known, found: seq<Found>, root: Path, firstRun: bool)
    requires found != [] && ParentsReady(known.rows, found, root)
    ensures ParentsReady(Added(known, found[|found| - 1], firstRun).rows, found[..|found| - 1], root)
  {
    var front := found[..|found| - 1];
    forall k | 0 <= k < |front| && front[k].path != root
      ensures FoundAfter(front, k, Parent(front[k].path))
           || Parent(front[k].path) in Added(known, found[|found| - 1], firstRun).rows
    {
      assert found[k] == front[k];
      if FoundAfter(found, k, Parent(found[k].path)) {
        var j :| k < j < |found| && found[j].path == Parent(found[k].path);
        if j < |front| {
          assert front[j].path == Parent(front[k].path);
        }
      }
    }
  }

  /** A created row: linked to its parent's, and with the hash only on a first run. */
  ghost predicate IsNewRow(rows: map<Path, Row>, found: Found, root: Path, firstRun: bool) {
    && found.path in rows
    && rows[found.path].name == NameOf(found.path)
    && rows[found.path].hash == (if firstRun then Some(found.hash) else None)
    && (found.path != root ==>
          Parent(found.path) in rows && rows[found.path].parentId == Some(rows[Parent(found.path)].id))
  }

  lemma {:induction false} LastIsLinked(known: Known, found: seq<Found>, root: Path, firstRun: bool)
    requires found != [] && ParentsReady(known.rows, found, root)
    requires found[|found| - 1].path !in known.rows
    ensures IsNewRow(Added(known, found[|found| - 1], firstRun).rows, found[|found| - 1], root, firstRun)
  {
  }

  lemma {:induction false} NewRowStays(
      rows: map<Path, Row>, more: map<Path, Row>, found: Found, root: Path, firstRun: bool)
    requires IsNewRow(rows, found, root, firstRun)
    requires forall p :: p in rows ==> p in more && more[p] == rows[p]
    ensures IsNewRow(more, found, root, firstRun)
  {
  }

  /** Every folder the sync creates below the root gets its parent's id. */
  lemma {:induction false} NewRowsAreLinked(known: Known, found: seq<Found>, root: Path, firstRun: bool, k: nat)
    requires ParentsReady(known.rows, found, root) && PathsDiffer(found)
    requires k < |found| && found[k].path !in known.rows
    ensures IsNewRow(Synced(known, found, firstRun).rows, found[k], root, firstRun)
    decreases |found|
  {
    var last := |found| - 1;
    var next, rest := Added(known, found[last], firstRun), found[..last];
    if k < last {
      ParentsStayReady(known, found, root, firstRun);
      assert rest[k] == found[k] && found[k].path !in next.rows;
      NewRowsAreLinked(next, rest, root, firstRun, k);
    } else {
      LastIsLinked(known, found, root, firstRun);
      SyncedKnowsAll(next, rest, firstRun);
      NewRowStays(next.rows, Synced(next, rest, firstRun).rows, found[last], root, firstRun);
    }
  }

  /** Reversing the bottom-up walk creates parents before children, so every new folder below the
      root is linked to its parent's row. */
  lemma {:induction false} NewFoldersGetParents(
      known: Known, disk: Folder, root: Path, firstRun: bool, p: Path, hash: Hash)
    requires Tidy(disk) && Found(p, hash) in Walk(disk, root).found && p !in known.rows
    ensures IsNewRow(Synced(known, Walk(disk, root).found, firstRun).rows, Found(p, hash), root, firstRun)
  {
    var found := Walk(disk, root).found;
    WalkIsBottomUp(disk, root);
    var k :| 0 <= k < |found| && found[k] == Found(p, hash);
    NewRowsAreLinked(known, found, root, firstRun, k);
  }

  // ---- What a diff reports ----

  /** A folder is reported if and only if the table lists it with a hash other than the stored one
      and it is not in flight, or it has no row. */
  lemma {:induction false} DiffReports(rows: map<Path, Row>, table: seq<Found>, inFlight: set<Id>, p: Path)
    ensures p in DiffOf(rows, table, inFlight).changed
      <==> exists k :: 0 <= k < |table| && table[k].path == p
             && (p in rows ==> rows[p].id !in inFlight && rows[p].hash != Some(table[k].hash))
  {
    if table == [] {
    } else {
      DiffReports(rows, table[..|table| - 1], inFlight, p);
    }
  }

  /** What storing a diff's hashes makes of one row. */
  function RowAfter(row: Row, table: seq<Found>, inFlight: set<Id>): Row {
    if table == [] then row
    else
      var last := table[|table| - 1];
      if last.path == row.path && row.id !in inFlight then row.(hash := Some(last.hash))
      else RowAfter(row, table[..|table| - 1], inFlight)
  }

  ghost predicate ValidRows(rows: map<Path, Row>) {
    && (forall p :: p in rows ==> rows[p].path == p)
    && (forall p, q :: p in rows && q in rows && rows[p].id == rows[q].id ==> p == q)
  }

  lemma {:induction false} StoredAllAppends(rows: map<Path, Row>, before: seq<Pending>, one: seq<Pending>)
    requires |one| <= 1
    ensures StoredAll(rows, before + one) == StoredAll(StoredAll(rows, before), one)
  {
    if one == [] {
      assert before + one == before;
    } else {
      assert (before + one)[..|before|] == before;
      assert one[..0] == [];
    }
  }

  lemma {:induction false} RowAfterKeeps(row: Row, table: seq<Found>, inFlight: set<Id>)
    ensures RowAfter(row, table, inFlight) == row.(hash := RowAfter(row, table, inFlight).hash)
    ensures row.id in inFlight ==> RowAfter(row, table, inFlight) == row
  {
    if table == [] {
    } else {
      RowAfterKeeps(row, table[..|table| - 1], inFlight);
    }
  }

  lemma {:induction false} StoredOneIs(
      rows: map<Path, Row>, after: map<Path, Row>, table: seq<Found>, inFlight: set<Id>, p: Path)
    requires ValidRows(rows) && table != [] && table[|table| - 1].path in rows && p in rows
    requires p in after && after[p] == RowAfter(rows[p], table[..|table| - 1], inFlight)
    ensures var one := DiffOne(rows, table[|table| - 1], inFlight).pending;
      && p in StoredAll(after, one) && StoredAll(after, one)[p] == RowAfter(rows[p], table, inFlight)
  {
    var last := table[|table| - 1];
    var one := DiffOne(rows, last, inFlight).pending;
    RowAfterKeeps(rows[p], table[..|table| - 1], inFlight);
    if one != [] {
      assert one[..0] == [];
      assert StoredAll(after, one) == Stored(after, one[0]);
    }
  }

  lemma {:induction false} StoredAllIs(rows: map<Path, Row>, table: seq<Found>, inFlight: set<Id>)
    requires ValidRows(rows) && forall k :: 0 <= k < |table| ==> table[k].path in rows
    ensures var after := StoredAll(rows, DiffOf(rows, table, inFlight).pending);
      && after.Keys == rows.Keys
      && forall p :: p in rows ==> after[p] == RowAfter(rows[p], table, inFlight)
  {
    if table == [] {
    } else {
      var front, last := table[..|table| - 1], table[|table| - 1];
      StoredAllIs(rows, front, inFlight);
      var before := DiffOf(rows, front, inFlight).pending;
      var after := StoredAll(rows, before);
      var one := DiffOne(rows, last, inFlight).pending;
      assert DiffOf(rows, table, inFlight).pending == before + one;
      StoredAllAppends(rows, before, one);
      forall p | p in rows
        ensures p in StoredAll(after, one) && StoredAll(after, one)[p] == RowAfter(rows[p], table, inFlight)
      {
        StoredOneIs(rows, after, table, inFlight, p);
      }
    }
  }

  lemma {:induction false} RowAfterIsListed(row: Row, table: seq<Found>, inFlight: set<Id>, k: nat)
    requires k < |table| && table[k].path == row.path && PathsDiffer(table) && row.id !in inFlight
    ensures RowAfter(row, table, inFlight).hash == Some(table[k].hash)
  {
    if k < |table| - 1 {
      RowAfterIsListed(row, table[..|table| - 1], inFlight, k);
    }
  }

  /** Storing what a diff asked for leaves, for the next diff of the same table, exactly the folders
      that were in flight and still differ: nothing is lost and nothing is reported twice. */
  lemma {:induction false} NextDiffReports(
      rows: map<Path, Row>, table: seq<Found>, inFlight: set<Id>, nowInFlight: set<Id>, p: Path)
    requires ValidRows(rows) && PathsDiffer(table)
    requires forall k :: 0 <= k < |table| ==> table[k].path in rows
    ensures var after := StoredAll(rows, DiffOf(rows, table, inFlight).pending);
      p in DiffOf(after, table, nowInFlight).changed
      <==> exists k :: 0 <= k < |table| && table[k].path == p && p in rows
             && rows[p].id in inFlight && rows[p].id !in nowInFlight && rows[p].hash != Some(table[k].hash)
  {
    var after := StoredAll(rows, DiffOf(rows, table, inFlight).pending);
    StoredAllIs(rows, table, inFlight);
    DiffReports(after, table, nowInFlight, p);
    forall k | 0 <= k < |table| && table[k].path == p
      ensures after[p].id == rows[p].id
      ensures after[p].hash == (if rows[p].id in inFlight then rows[p].hash else Some(table[k].hash))
    {
      RowAfterKeeps(rows[p], table, inFlight);
      if rows[p].id !in inFlight {
        RowAfterIsListed(rows[p], table, inFlight, k);
      }
    }
  }

  // ---- What a poll reports ----

  lemma {:induction false} FoundIsSeen(disk: Folder, root: Path, p: Path)
    requires Tidy(disk)
    ensures (exists k :: 0 <= k < |Walk(disk, root).found| && Walk(disk, root).found[k].path == p)
      <==> root <= p && Seen(disk, p[|root|..]).Some?
  {
    var found := Walk(disk, root).found;
    if k :| 0 <= k < |found| && found[k].path == p {
      WalkFinds(disk, root, p, found[k].hash);
      assert found[k] == Found(p, found[k].hash);
    }
    if root <= p && Seen(disk, p[|root|..]).Some? {
      WalkFinds(disk, root, p, Seen(disk, p[|root|..]).value);
    }
  }

  /** The disk has no such folder under the root, and nothing on the way to it is hidden. */
  predicate Gone(disk: Folder, root: Path, p: Path) {
    root <= p && Lookup(disk, p[|root|..]).None? && !Hidden(disk, p[|root|..])
  }

  /** A known folder counts as vanished if and only if it is gone: never one that is on disk, and
      never one below a folder that could not be listed. */
  lemma {:induction false} VanishedIsGone(disk: Folder, root: Path, p: Path)
    requires Tidy(disk)
    ensures IsVanished(p, Walk(disk, root), root) <==> Gone(disk, root, p)
  {
    FoundIsSeen(disk, root, p);
    WalkHides(disk, root, p);
  }

  lemma {:induction false} VanishedAre(order: seq<Path>, walked: Walked, root: Path)
    requires forall i, j :: 0 <= i < j < |order| ==> order[i] != order[j]
    ensures var gone := Vanished(order, walked, root);
      && PathsDiffer(gone)
      && (forall k :: 0 <= k < |gone| ==>
            gone[k].hash == EMPTY_FOLDER_HASH && gone[k].path in order && IsVanished(gone[k].path, walked, root))
      && (forall p :: p in order && IsVanished(p, walked, root) ==> Found(p, EMPTY_FOLDER_HASH) in gone)
  {
    if order == [] {
    } else {
      var front, last := order[..|order| - 1], order[|order| - 1];
      VanishedAre(front, walked, root);
      assert last !in front;
      assert order == front + [last];
    }
  }

  /** The table a poll diffs. */
  function Table(known: Known, walked: Walked, root: Path): seq<Found> {
    walked.found + Vanished(known.order, walked, root)
  }

  lemma {:induction false} TableLaws(known: Known, walked: Walked, root: Path)
    requires Valid(known) && PathsDiffer(walked.found)
    requires forall k :: 0 <= k < |walked.found| ==> walked.found[k].path in known.rows
    ensures PathsDiffer(Table(known, walked, root))
    ensures forall k :: 0 <= k < |Table(known, walked, root)| ==> Table(known, walked, root)[k].path in known.rows
  {
    VanishedAre(known.order, walked, root);
    var gone := Vanished(known.order, walked, root);
    forall i, j | 0 <= i < |walked.found| && 0 <= j < |gone|
      ensures walked.found[i].path != gone[j].path
    {
      assert IsVanished(gone[j].path, walked, root);
    }
  }

  /** What the disk makes of a folder's hash: its own where it can be seen, that of an empty folder
      where it is gone, and none where it is hidden or outside the root. */
  function Expected(disk: Folder, root: Path, p: Path): Option<Hash> {
    if !(root <= p) || Hidden(disk, p[|root|..]) then None
    else
      match Lookup(disk, p[|root|..])
      case Some(found) => Some(found.hash)
      case None => Some(EMPTY_FOLDER_HASH)
  }

  lemma {:induction false} VanishedLists(order: seq<Path>, disk: Folder, root: Path, p: Path, hash: Hash)
    requires Tidy(disk) && forall i, j :: 0 <= i < j < |order| ==> order[i] != order[j]
    ensures Found(p, hash) in Vanished(order, Walk(disk, root), root)
      <==> p in order && Gone(disk, root, p) && hash == EMPTY_FOLDER_HASH
  {
    VanishedAre(order, Walk(disk, root), root);
    VanishedIsGone(disk, root, p);
  }

  /** The table lists a known folder with what the disk makes of it, and nothing else. */
  lemma {:induction false} TableLists(synced: Known, disk: Folder, root: Path, p: Path, hash: Hash)
    requires Valid(synced) && Tidy(disk)
    requires root <= p && Seen(disk, p[|root|..]).Some? ==> p in synced.rows
    ensures Found(p, hash) in Table(synced, Walk(disk, root), root)
      <==> p in synced.rows && Expected(disk, root, p) == Some(hash)
  {
    VanishedLists(synced.order, disk, root, p, hash);
    WalkFinds(disk, root, p, hash);
  }

  lemma {:induction false} DiffReportsExpected(
      rows: map<Path, Row>, table: seq<Found>, inFlight: set<Id>, p: Path, expected: Option<Hash>)
    requires forall hash :: Found(p, hash) in table <==> p in rows && expected == Some(hash)
    ensures p in DiffOf(rows, table, inFlight).changed
      <==> p in rows && rows[p].id !in inFlight && expected.Some? && rows[p].hash != expected
  {
    DiffReports(rows, table, inFlight, p);
    forall k | 0 <= k < |table| && table[k].path == p ensures p in rows && expected == Some(table[k].hash) {
      assert table[k] == Found(p, table[k].hash);
    }
    if p in rows && expected.Some? {
      assert Found(p, expected.value) in table;
    }
  }

  lemma {:induction false} SeenIsKnown(known: Known, disk: Folder, root: Path, firstRun: bool, p: Path)
    requires Tidy(disk)
    ensures root <= p && Seen(disk, p[|root|..]).Some? ==> p in Synced(known, Walk(disk, root).found, firstRun).rows
  {
    SyncedKnowsAll(known, Walk(disk, root).found, firstRun);
    FoundIsSeen(disk, root, p);
  }

  /** A poll of a library that is not empty reports a folder if and only if it has a row, is not in
      flight, and the disk makes of its hash something other than what is stored. */
  lemma {:induction false} PollReports(known: Known, disk: Folder, root: Path, inFlight: set<Id>, p: Path)
    requires Valid(known) && known.rows != map[] && Tidy(disk)
    ensures var poll := PollOf(known, Some(disk), root, inFlight);
      p in poll.diff.changed
      <==> p in poll.known.rows && poll.known.rows[p].id !in inFlight
             && Expected(disk, root, p).Some? && poll.known.rows[p].hash != Expected(disk, root, p)
  {
    var walked := Walk(disk, root);
    var synced := Synced(known, walked.found, false);
    SyncedIsValid(known, walked.found, false);
    SeenIsKnown(known, disk, root, false, p);
    forall hash ensures Found(p, hash) in Table(synced, walked, root)
                   <==> p in synced.rows && Expected(disk, root, p) == Some(hash) {
      TableLists(synced, disk, root, p, hash);
    }
    DiffReportsExpected(synced.rows, Table(synced, walked, root), inFlight, p, Expected(disk, root, p));
  }

  lemma {:induction false} SyncedKeys(known: Known, found: seq<Found>, firstRun: bool, p: Path)
    requires p in Synced(known, found, firstRun).rows && p !in known.rows
    ensures exists k :: 0 <= k < |found| && found[k].path == p
    decreases |found|
  {
    if found == [] {
    } else {
      var last := |found| - 1;
      if found[last].path != p {
        SyncedKeys(Added(known, found[last], firstRun), found[..last], firstRun, p);
        var k :| 0 <= k < |found[..last]| && found[..last][k].path == p;
        assert found[k].path == p;
      }
    }
  }

  /** The rows a poll diffs: those known are untouched, the others are exactly the folders seen for
      the first time, and have no hash. */
  lemma {:induction false} RowsOfPoll(known: Known, disk: Folder, root: Path, inFlight: set<Id>, p: Path)
    requires Valid(known) && known.rows != map[] && Tidy(disk)
    ensures var rows := PollOf(known, Some(disk), root, inFlight).known.rows;
      if p in known.rows then p in rows && rows[p] == known.rows[p]
      else (p in rows <==> root <= p && Seen(disk, p[|root|..]).Some?) && (p in rows ==> rows[p].hash == None)
  {
    var found := Walk(disk, root).found;
    var rows := Synced(known, found, false).rows;
    SyncedKnowsAll(known, found, false);
    SeenIsKnown(known, disk, root, false, p);
    if p in rows && p !in known.rows {
      SyncedKeys(known, found, false, p);
      var k :| 0 <= k < |found| && found[k].path == p;
      WalkFinds(disk, root, p, found[k].hash);
      assert found[k] == Found(p, found[k].hash);
      WalkIsBottomUp(disk, root);
      NewRowsAreLinked(known, found, root, false, k);
    }
  }

  // ---- From one poll to the next ----

  /** What is known once a poll's hashes were stored. */
  function AfterStoring(poll: Poll): Known {
    poll.known.(rows := StoredAll(poll.known.rows, poll.diff.pending))
  }

  lemma {:induction false} NothingNew(known: Known, found: seq<Found>, firstRun: bool)
    requires forall k :: 0 <= k < |found| ==> found[k].path in known.rows
    ensures Synced(known, found, firstRun) == known
    decreases |found|
  {
    if found == [] {
    } else {
      assert found[|found| - 1].path in known.rows;
      NothingNew(known, found[..|found| - 1], firstRun);
    }
  }

  /** A poll that finds every folder already known only diffs. */
  lemma {:induction false} KnownPoll(known: Known, disk: Folder, root: Path, inFlight: set<Id>)
    requires known.rows != map[]
    requires forall k :: 0 <= k < |Walk(disk, root).found| ==> Walk(disk, root).found[k].path in known.rows
    ensures PollOf(known, Some(disk), root, inFlight)
      == Poll(known, DiffOf(known.rows, Table(known, Walk(disk, root), root), inFlight))
  {
    NothingNew(known, Walk(disk, root).found, false);
  }

  /** What a poll leaves to the next: a valid table of folders that all have rows. */
  lemma {:induction false} FirstLeaves(known: Known, disk: Folder, root: Path, inFlight: set<Id>)
    requires Valid(known) && known.rows != map[] && Tidy(disk)
    ensures var synced := PollOf(known, Some(disk), root, inFlight).known;
      && Valid(synced) && synced.rows != map[]
      && (forall k :: 0 <= k < |Walk(disk, root).found| ==> Walk(disk, root).found[k].path in synced.rows)
      && PathsDiffer(Table(synced, Walk(disk, root), root))
      && (forall k :: 0 <= k < |Table(synced, Walk(disk, root), root)| ==>
            Table(synced, Walk(disk, root), root)[k].path in synced.rows)
  {
    var walked := Walk(disk, root);
    SyncedIsValid(known, walked.found, false);
    SyncedKnowsAll(known, walked.found, false);
    assert forall p :: p in known.rows ==> p in Synced(known, walked.found, false).rows;
    WalkIsBottomUp(disk, root);
    TableLaws(Synced(known, walked.found, false), walked, root);
  }

  lemma {:induction false} SecondDiff(
      synced: Known, later: Known, disk: Folder, root: Path, inFlight: set<Id>, nowInFlight: set<Id>, p: Path)
    requires Valid(synced) && Tidy(disk)
    requires var table := Table(synced, Walk(disk, root), root);
      && PathsDiffer(table) && (forall k :: 0 <= k < |table| ==> table[k].path in synced.rows)
      && later.order == synced.order
      && later.rows == StoredAll(synced.rows, DiffOf(synced.rows, table, inFlight).pending)
    requires root <= p && Seen(disk, p[|root|..]).Some? ==> p in synced.rows
    ensures p in DiffOf(later.rows, Table(later, Walk(disk, root), root), nowInFlight).changed
      <==> p in synced.rows && synced.rows[p].id in inFlight && synced.rows[p].id !in nowInFlight
             && Expected(disk, root, p).Some? && synced.rows[p].hash != Expected(disk, root, p)
  {
    var table := Table(synced, Walk(disk, root), root);
    NextDiffReports(synced.rows, table, inFlight, nowInFlight, p);
    forall k | 0 <= k < |table| && table[k].path == p
      ensures p in synced.rows && Expected(disk, root, p) == Some(table[k].hash)
    {
      TableLists(synced, disk, root, p, table[k].hash);
      assert table[k] == Found(p, table[k].hash);
    }
    if p in synced.rows && Expected(disk, root, p).Some? {
      TableLists(synced, disk, root, p, Expected(disk, root, p).value);
    }
  }

  /** Once a poll's hashes were stored, the next finds on the same disk only folders that were in
      flight, are not any more, and still differ: every other folder is reported once, and one that
      was skipped is not lost. */
  lemma {:induction false} PollConverges(
      known: Known, disk: Folder, root: Path, inFlight: set<Id>, nowInFlight: set<Id>, p: Path)
    requires Valid(known) && known.rows != map[] && Tidy(disk)
    ensures var first := PollOf(known, Some(disk), root, inFlight);
      var second := PollOf(AfterStoring(first), Some(disk), root, nowInFlight);
      p in second.diff.changed
      <==> p in first.known.rows && first.known.rows[p].id in inFlight && first.known.rows[p].id !in nowInFlight
             && Expected(disk, root, p).Some? && first.known.rows[p].hash != Expected(disk, root, p)
  {
    var first := PollOf(known, Some(disk), root, inFlight);
    var later := AfterStoring(first);
    FirstLeaves(known, disk, root, inFlight);
    SeenIsKnown(known, disk, root, false, p);
    StoredAllIs(first.known.rows, Table(first.known, Walk(disk, root), root), inFlight);
    assert later.rows.Keys == first.known.rows.Keys;
    KnownPoll(later, disk, root, nowInFlight);
    SecondDiff(first.known, later, disk, root, inFlight, nowInFlight, p);
  }

  /** After a poll with nothing in flight, once its hashes were stored, a poll of the unchanged disk
      reports no folder: a changed one was reported once, and so was a vanished one. */
  lemma {:induction false} UnchangedDiskIsQuiet(known: Known, disk: Folder, root: Path, nowInFlight: set<Id>)
    requires Valid(known) && known.rows != map[] && Tidy(disk)
    ensures var first := PollOf(known, Some(disk), root, {});
      PollOf(AfterStoring(first), Some(disk), root, nowInFlight).diff.changed == []
  {
    var first := PollOf(known, Some(disk), root, {});
    var changed := PollOf(AfterStoring(first), Some(disk), root, nowInFlight).diff.changed;
    if changed != [] {
      PollConverges(known, disk, root, {}, nowInFlight, changed[0]);
      assert false;
    }
  }

  lemma {:induction false} FirstHashesMatch(rows: map<Path, Row>, found: seq<Found>, nowInFlight: set<Id>)
    requires ValidRows(rows) && PathsDiffer(found)
    requires forall k :: 0 <= k < |found| ==> found[k].path in rows
    ensures DiffOf(StoredAll(rows, DiffOf(rows, found, {}).pending), found, nowInFlight).changed == []
  {
    var changed := DiffOf(StoredAll(rows, DiffOf(rows, found, {}).pending), found, nowInFlight).changed;
    if changed != [] {
      NextDiffReports(rows, found, {}, nowInFlight, changed[0]);
      assert false;
    }
  }

  lemma {:induction false} NothingVanishes(known: Known, synced: Known, walked: Walked, root: Path)
    requires Valid(known) && known.rows == map[] && synced == Synced(known, walked.found, true) && Valid(synced)
    ensures Vanished(synced.order, walked, root) == []
  {
    VanishedAre(synced.order, walked, root);
    var gone := Vanished(synced.order, walked, root);
    if gone != [] {
      assert gone[0].path in synced.order;
      SyncedKeys(known, walked.found, true, gone[0].path);
      assert false;
    }
  }

  /** The first poll of an empty library reports nothing, and nor does the next of the same disk. */
  lemma {:induction false} FirstPollIsQuiet(
      known: Known, disk: Folder, root: Path, inFlight: set<Id>, nowInFlight: set<Id>)
    requires Valid(known) && known.rows == map[] && Tidy(disk)
    ensures var first := PollOf(known, Some(disk), root, inFlight);
      first.diff == Diff([], [])
      && PollOf(AfterStoring(first), Some(disk), root, nowInFlight).diff.changed == []
  {
    var walked := Walk(disk, root);
    var synced := Synced(known, walked.found, true);
    var first := PollOf(known, Some(disk), root, inFlight);
    SyncedIsValid(known, walked.found, true);
    SyncedKnowsAll(known, walked.found, true);
    WalkIsBottomUp(disk, root);
    StoredAllIs(synced.rows, walked.found, {});
    var later := first.known;
    assert AfterStoring(first) == later;
    if later.rows != map[] {
      KnownPoll(later, disk, root, nowInFlight);
      NothingVanishes(known, synced, walked, root);
      assert Table(later, walked, root) == walked.found;
      FirstHashesMatch(synced.rows, walked.found, nowInFlight);
    }
  }

  // ---- What is stored, and a root that is not there ----

  /** The hashes to store are those of every known folder in the table that is not in flight, changed or
      not, each under its row's id. */
  lemma {:induction false} PendingAre(rows: map<Path, Row>, table: seq<Found>, inFlight: set<Id>, pending: Pending)
    ensures pending in DiffOf(rows, table, inFlight).pending
      <==> exists k :: 0 <= k < |table| && table[k].path in rows && table[k].hash == pending.hash
             && rows[table[k].path].id == pending.id && pending.id !in inFlight
  {
    if table == [] {
    } else {
      PendingAre(rows, table[..|table| - 1], inFlight, pending);
    }
  }

  /** A root that is no folder, an unmounted share say, changes and reports nothing: nothing counts as
      vanished. */
  lemma {:induction false} MissingRootIsQuiet(known: Known, root: Path, inFlight: set<Id>)
    ensures
      var poll := PollOf(known, None, root, inFlight);
      poll.known == known && poll.diff.changed == [] && poll.diff.pending == []
  {
  }

  /** A row is named like its folder: a folder directly in another by its own name, the top not at all. */
  lemma {:induction false} RowIsNamed(parent: Path, name: Name)
    ensures NameOf(parent + [name]) == name && Parent(parent + [name]) == parent && NameOf([]) == ""
  {
  }
}
