/** Per-folder change detection (backend/services/folder_hash_service.py): a poll walks the disk,
    records new folders, and diffs each folder's hash against the stored one.

    Folder rows are kept by path, with the order they are listed in; a new row's id is one no row
    has. */
module FolderHashes {
  import opened Wrappers
  import opened FolderTrees

  type Id = nat

  datatype Row = Row(id: Id, name: Name, path: Path, parentId: Option<Id>, hash: Option<Hash>)

  datatype Known = Known(rows: map<Path, Row>, order: seq<Path>, nextId: Id)

  /** A hash to store for a folder once it was scanned. */
  datatype Pending = Pending(id: Id, hash: Hash)

  datatype Diff = Diff(changed: seq<Path>, pending: seq<Pending>)

  /** What a folder with no audio files hashes to, and what a vanished one is diffed as. */
  const EMPTY_FOLDER_HASH: Hash := "e3b0c44298fc1c149afbf4c8996fb92427ae41e4649b934ca495991b7852b855"

  ghost predicate Valid(known: Known) {
    && (forall p :: p in known.rows ==> known.rows[p].path == p && known.rows[p].id < known.nextId)
    && (forall p, q :: p in known.rows && q in known.rows && known.rows[p].id == known.rows[q].id ==> p == q)
    && (forall k :: 0 <= k < |known.order| ==> known.order[k] in known.rows)
    && (forall p :: p in known.rows ==> p in known.order)
    && (forall i, j :: 0 <= i < j < |known.order| ==> known.order[i] != known.order[j])
  }

  // ---- New folders ----

  function NameOf(path: Path): Name {
    if path == [] then "" else path[|path| - 1]
  }

  function ParentId(rows: map<Path, Row>, path: Path): Option<Id> {
    if Parent(path) in rows then Some(rows[Parent(path)].id) else None
  }

  function Added(known: Known, found: Found, firstRun: bool): Known {
    if found.path in known.rows then known
    else
      var hash := if firstRun then Some(found.hash) else None;
      var row := Row(known.nextId, NameOf(found.path), found.path, ParentId(known.rows, found.path), hash);
      Known(known.rows[found.path := row], known.order + [found.path], known.nextId + 1)
  }

  /** The rows after the walk's folders were recorded, last found first. */
  function Synced(known: Known, found: seq<Found>, firstRun: bool): Known
    decreases |found|
  {
    if found == [] then known
    else Synced(Added(known, found[|found| - 1], firstRun), found[..|found| - 1], firstRun)
  }

  // ---- The diff ----

  /** A known folder under the root that the walk did not see, and could have. */
  predicate IsVanished(p: Path, walked: Walked, root: Path) {
    && !(exists k :: 0 <= k < |walked.found| && walked.found[k].path == p)
    && root <= p
    && !(exists k :: 0 <= k < |walked.unlistable| && walked.unlistable[k] <= p)
  }

  function Vanished(order: seq<Path>, walked: Walked, root: Path): seq<Found> {
    if order == [] then []
    else
      var p := order[|order| - 1];
      Vanished(order[..|order| - 1], walked, root)
      + (if IsVanished(p, walked, root) then [Found(p, EMPTY_FOLDER_HASH)] else [])
  }

  /** What one folder adds to the diff. */
  function DiffOne(rows: map<Path, Row>, found: Found, inFlight: set<Id>): Diff {
    if found.path !in rows then Diff([found.path], [])
    else
      var row := rows[found.path];
      if row.id in inFlight then Diff([], [])
      else Diff(if row.hash != Some(found.hash) then [found.path] else [], [Pending(row.id, found.hash)])
  }

  function DiffOf(rows: map<Path, Row>, table: seq<Found>, inFlight: set<Id>): Diff {
    if table == [] then Diff([], [])
    else
      var before := DiffOf(rows, table[..|table| - 1], inFlight);
      var last := DiffOne(rows, table[|table| - 1], inFlight);
      Diff(before.changed + last.changed, before.pending + last.pending)
  }

  // ---- Storing hashes ----

  function Stored(rows: map<Path, Row>, pending: Pending): map<Path, Row> {
    map p | p in rows :: if rows[p].id == pending.id then rows[p].(hash := Some(pending.hash)) else rows[p]
  }

  function StoredAll(rows: map<Path, Row>, pending: seq<Pending>): map<Path, Row> {
    if pending == [] then rows
    else Stored(StoredAll(rows, pending[..|pending| - 1]), pending[|pending| - 1])
  }

  // ---- A poll ----

  /** What a poll makes of the disk: the rows it leaves, and the diff it reports. */
  datatype Poll = Poll(known: Known, diff: Diff)

  function PollOf(known: Known, disk: Option<Folder>, root: Path, inFlight: set<Id>): Poll {
    if disk.None? then Poll(known, Diff([], []))
    else
      var walked := Walk(disk.value, root);
      var firstRun := known.rows == map[];
      var synced := Synced(known, walked.found, firstRun);
      if firstRun then
        var first := DiffOf(synced.rows, walked.found, {}).pending;
        Poll(synced.(rows := StoredAll(synced.rows, first)), Diff([], []))
      else Poll(synced, DiffOf(synced.rows, walked.found + Vanished(synced.order, walked, root), inFlight))
  }

  lemma {:induction false} SyncedKnowsAll(known: Known, found: seq<Found>, firstRun: bool)
    ensures forall k :: 0 <= k < |found| ==> found[k].path in Synced(known, found, firstRun).rows
    ensures forall p :: p in known.rows ==>
      p in Synced(known, found, firstRun).rows && Synced(known, found, firstRun).rows[p] == known.rows[p]
    decreases |found|
  {
    if found == [] {
    } else {
      SyncedKnowsAll(Added(known, found[|found| - 1], firstRun), found[..|found| - 1], firstRun);
    }
  }

  /** The folder rows, and what a poll does to them. */
  class FolderRepository {
    var rows: map<Path, Row>
    var order: seq<Path>
    var nextId: Id

    function State(): Known
      reads this
    {
      Known(rows, order, nextId)
    }

    method UpdateHash(id: Id, hash: Hash)
      modifies this`rows
      ensures rows == Stored(old(rows), Pending(id, hash))
    {
      rows := map p | p in rows :: if rows[p].id == id then rows[p].(hash := Some(hash)) else rows[p];
    }

    /** Create rows for folders not yet known, parents before children. */
    method SyncNewFolders(found: seq<Found>, firstRun: bool)
      modifies this
      ensures State() == Synced(old(State()), found, firstRun)
    {
      assert found[..|found|] == found;
      for k := |found| downto 0
        invariant Synced(State(), found[..k], firstRun) == Synced(old(State()), found, firstRun)
      {
        assert found[..k + 1][..k] == found[..k];
        var folder := found[k];
        if folder.path !in rows {
          var hash := if firstRun then Some(folder.hash) else None;
          var parentId := if Parent(folder.path) in rows then Some(rows[Parent(folder.path)].id) else None;
          var row := Row(nextId, NameOf(folder.path), folder.path, parentId, hash);
          rows, order, nextId := rows[folder.path := row], order + [folder.path], nextId + 1;
        }
      }
    }

    method FindVanished(walked: Walked, root: Path) returns (vanished: seq<Found>)
      ensures vanished == Vanished(order, walked, root)
    {
      vanished := [];
      for k := 0 to |order|
        invariant vanished == Vanished(order[..k], walked, root)
      {
        assert order[..k + 1][..k] == order[..k];
        if IsVanished(order[k], walked, root) {
          vanished := vanished + [Found(order[k], EMPTY_FOLDER_HASH)];
        }
      }
      assert order[..|order|] == order;
    }

    method ComputeDiff(table: seq<Found>, inFlight: set<Id>) returns (diff: Diff)
      ensures diff == DiffOf(rows, table, inFlight)
    {
      var changed: seq<Path>, pending: seq<Pending> := [], [];
      for k := 0 to |table|
        invariant Diff(changed, pending) == DiffOf(rows, table[..k], inFlight)
      {
        assert table[..k + 1][..k] == table[..k];
        var path, hash := table[k].path, table[k].hash;
        if path in rows {
          if rows[path].id !in inFlight {
            pending := pending + [Pending(rows[path].id, hash)];
            if rows[path].hash != Some(hash) {
              changed := changed + [path];
            }
          }
        } else {
          changed := changed + [path];
        }
      }
      assert table[..|table|] == table;
      return Diff(changed, pending);
    }

    /** The first poll of an empty library stores every hash and reports nothing; later polls report
        the folders whose hash changed, and the hashes to store. */
    method DiffTree(disk: Option<Folder>, root: Path, inFlight: set<Id>) returns (diff: Diff)
      requires Valid(State())
      modifies this
      ensures Poll(State(), diff) == PollOf(old(State()), disk, root, inFlight)
    {
      if disk.None? {
        return Diff([], []);
      }
      var firstRun := rows == map[];
      var walked := Walk(disk.value, root);
      SyncNewFolders(walked.found, firstRun);
      if firstRun {
        SyncedKnowsAll(old(State()), walked.found, firstRun);
        StoreFirstHashes(walked.found);
        return Diff([], []);
      }
      var vanished := FindVanished(walked, root);
      diff := ComputeDiff(walked.found + vanished, inFlight);
    }

    method StoreFirstHashes(found: seq<Found>)
      requires forall k :: 0 <= k < |found| ==> found[k].path in rows
      modifies this`rows
      ensures rows == StoredAll(old(rows), DiffOf(old(rows), found, {}).pending)
    {
      ghost var was := rows;
      for k := 0 to |found|
        invariant rows.Keys == was.Keys && forall p :: p in was ==> rows[p].id == was[p].id
        invariant rows == StoredAll(was, DiffOf(was, found[..k], {}).pending)
      {
        assert found[..k + 1][..k] == found[..k];
        ghost var before := DiffOf(was, found[..k], {}).pending;
        var id := rows[found[k].path].id;
        assert (before + [Pending(id, found[k].hash)])[..|before|] == before;
        UpdateHash(id, found[k].hash);
      }
      assert found[..|found|] == found;
    }
  }
}
