/** One run of song matching over a playlist, whole (`match_identities_for_playlist`): the songs are
    grouped by artist, their rejections loaded in one batch, each resolved through the memos, and
    each written through the guard.

    The chain reads nothing that the run writes, so resolving the songs before the first is written
    gives what resolving each just before its own write does. */
module PlaylistMatching {
  import opened Wrappers
  import opened SongMatching
  import opened SongMatchingLaws
  import opened ArtistGrouping
  import opened ArtistMemos
  import opened MatchingRun

  // ---- What the run stands for ----

  /** The file each mapping rule that matches a song names, in order. */
  type Rules = Song -> seq<Option<LibraryFile>>

  ghost predicate DistinctSongs(songs: seq<Song>) {
    forall i, j :: 0 <= i < j < |songs| ==> songs[i].id != songs[j].id
  }

  /** A song with the rejections of its own, read directly. */
  function TaskOf(world: World, rules: Rules, song: Song): Task {
    Task(song, rules(song), ExclusionsOf(song, world.library))
  }

  function TasksOf(world: World, rules: Rules, songs: seq<Song>): (tasks: seq<Task>)
    ensures |tasks| == |songs| && forall i :: 0 <= i < |songs| ==> tasks[i] == TaskOf(world, rules, songs[i])
  {
    seq(|songs|, i requires 0 <= i < |songs| => TaskOf(world, rules, songs[i]))
  }

  function IdsOf(songs: seq<Song>): (ids: seq<int>)
    ensures |ids| == |songs| && forall i :: 0 <= i < |songs| ==> ids[i] == songs[i].id
  {
    seq(|songs|, i requires 0 <= i < |songs| => songs[i].id)
  }

  /** The run's turns: the grouped songs, each with the result that direct reads give it. */
  function TurnsOf(
      world: World, rules: Rules, pending: seq<Song>, today: Scorer, trial: Option<Scorer>, precheck: bool,
      decisions: seq<map<int, SongRow>>): Turns
  {
    var grouped := Grouped(pending);
    Turns(IdsOf(grouped), DirectAll(world, TasksOf(world, rules, grouped), today, trial, precheck), decisions)
  }

  // ---- Grouping keeps the songs ----

  lemma {:induction false} OnceInSongs(songs: seq<Song>, song: Song)
    requires DistinctSongs(songs)
    ensures multiset(songs)[song] <= 1
  {
    if songs == [] {
    } else {
      assert songs == [songs[0]] + songs[1..];
      OnceInSongs(songs[1..], song);
      forall i | 0 < i < |songs| ensures songs[i] != songs[0] {
        assert songs[i].id != songs[0].id;
      }
    }
  }

  lemma {:induction false} TwiceInSongs(songs: seq<Song>, i: nat, j: nat)
    requires i < j < |songs| && songs[i] == songs[j]
    ensures multiset(songs)[songs[i]] >= 2
  {
    var before, after := songs[..j], songs[j..];
    assert songs == before + after;
    assert before[i] == songs[i] && songs[i] in multiset(before);
    assert after[0] == songs[j] && songs[j] in multiset(after);
    assert multiset(songs) == multiset(before) + multiset(after);
  }

  /** A reordering of distinct songs is one of distinct songs. */
  lemma {:induction false} ReorderedDistinct(songs: seq<Song>, reordered: seq<Song>, i: nat, j: nat)
    requires DistinctSongs(songs) && multiset(reordered) == multiset(songs) && i < j < |reordered|
    ensures reordered[i].id != reordered[j].id
  {
    if reordered[i].id == reordered[j].id {
      assert reordered[i] in multiset(songs) && reordered[j] in multiset(songs);
      assert reordered[i] == reordered[j];
      TwiceInSongs(reordered, i, j);
      OnceInSongs(songs, reordered[i]);
      assert false;
    }
  }

  lemma {:induction false} GroupedSongs(songs: seq<Song>)
    requires DistinctSongs(songs)
    ensures DistinctSongs(Grouped(songs)) && |Grouped(songs)| == |songs|
    ensures forall song :: song in songs <==> song in Grouped(songs)
  {
    var grouped := Grouped(songs);
    assert multiset(grouped) == multiset(songs);
    SameSize(grouped, songs);
    forall song ensures song in songs <==> song in grouped {
      assert song in songs <==> song in multiset(songs);
      assert song in grouped <==> song in multiset(grouped);
    }
    forall i, j | 0 <= i < j < |grouped| ensures grouped[i].id != grouped[j].id {
      ReorderedDistinct(songs, grouped, i, j);
    }
  }

  // ---- The run ----

  /** What the run must be given: songs pending in the store, one row each, and decisions. */
  ghost predicate Given(rows: map<int, SongRow>, world: World, rules: Rules, pending: seq<Song>,
                        decisions: seq<map<int, SongRow>>)
  {
    && DistinctSongs(pending) && DistinctIds(world.library)
    && (forall id :: id in world.artists ==> world.artists[id].id == id)
    && (forall song :: song in pending ==> song.id in rows && rows[song.id].status == Pending)
    && (forall song, r :: song in pending && r in rules(song) && r.Some? ==> r.value in world.library)
    && |decisions| == |pending|
    && (forall k, id :: 0 <= k < |decisions| && id in decisions[k] ==> id in rows)
  }

  /** A written row: at most one suggestion, none when hidden, of a library file that the song's
      rejections allow. */
  ghost predicate Shows(row: SongRow, exclusions: Exclusions, library: seq<LibraryFile>) {
    && |row.matches| <= 1
    && (row.status == AutoRejected ==> row.matches == [])
    && (row.status == AutoMatched ==> |row.matches| == 1)
    && (forall m :: m in row.matches ==> Allowed(library, exclusions, m.fileId))
  }

  /** The row of turn `k`'s song after the run: the user's last decision since, else its own result
      when it was still pending, else what the user had decided. */
  ghost predicate Ends(
      before: map<int, SongRow>, row: SongRow, world: World, task: Task, outcome: Outcome, turns: Turns, k: nat)
    requires turns.Valid() && k < |turns.ids| && turns.ids[k] in before
  {
    var id := turns.ids[k];
    var met := Met(before, turns, k);
    var since := LastDecision(turns, k + 1, |turns.ids|, id);
    if since.Some? then row == since.value
    else if met.status != Pending then row == met
    else row == Written(outcome) && Shows(row, task.exclusions, world.library)
  }

  lemma {:induction false} IdsAre(songs: seq<Song>, ids: seq<int>)
    requires DistinctSongs(songs) && ids == IdsOf(songs)
    ensures forall i, j :: 0 <= i < j < |ids| ==> ids[i] != ids[j]
    ensures forall id :: id in ids ==> exists song :: song in songs && song.id == id
  {
    forall id | id in ids ensures exists song :: song in songs && song.id == id {
      var k :| 0 <= k < |ids| && ids[k] == id;
      assert songs[k] in songs;
    }
  }

  lemma {:induction false} PendingHasRow(
      rows: map<int, SongRow>, world: World, rules: Rules, pending: seq<Song>, decisions: seq<map<int, SongRow>>,
      song: Song)
    requires Given(rows, world, rules, pending, decisions) && song in pending
    ensures song.id in rows && rows[song.id].status == Pending
  {
  }

  /** The turns of a run are valid, and each is a pending song's. */
  lemma {:induction false} TurnsAreValid(
      rows: map<int, SongRow>, world: World, rules: Rules, pending: seq<Song>, turns: Turns)
    requires Given(rows, world, rules, pending, turns.decisions)
    requires turns.ids == IdsOf(Grouped(pending)) && |turns.outcomes| == |turns.ids|
    ensures turns.Valid() && |turns.ids| == |pending| && forall id :: id in turns.ids ==> id in rows
  {
    GroupedSongs(pending);
    IdsAre(Grouped(pending), turns.ids);
    forall id | id in turns.ids ensures id in rows {
      var song :| song in Grouped(pending) && song.id == id;
      PendingHasRow(rows, world, rules, pending, turns.decisions, song);
    }
  }

  /** Over a whole run every pending song ends with the user's decision or its own allowed result. */
  lemma {:induction false} SongEnds(
      rows: map<int, SongRow>, world: World, rules: Rules, pending: seq<Song>, today: Scorer, trial: Option<Scorer>,
      precheck: bool, turns: Turns, k: nat)
    requires Given(rows, world, rules, pending, turns.decisions)
    requires turns == TurnsOf(world, rules, pending, today, trial, precheck, turns.decisions) && turns.Valid()
    requires k < |turns.ids| && turns.ids[k] in rows
    ensures
      var task := TaskOf(world, rules, Grouped(pending)[k]);
      Ends(rows, RowAfter(rows, turns, |turns.ids|, turns.ids[k]), world, task,
           Direct(world, task, today, trial, precheck), turns, k)
  {
    var grouped := Grouped(pending);
    var song, tasks := grouped[k], TasksOf(world, rules, grouped);
    GroupedSongs(pending);
    assert song in pending;
    DirectAllAt(world, tasks, today, trial, precheck, k);
    UserDecisionWins(rows, turns, |turns.ids|, k);
    WrittenNamesAllowed(world, rules(song), song, tasks[k].exclusions, today, trial, precheck);
  }

  /** The tasks of the grouped songs, with the exclusions loaded for the whole playlist. */
  method BuildTasks(world: World, rules: Rules, pending: seq<Song>, grouped: seq<Song>) returns (tasks: seq<Task>)
    requires DistinctSongs(pending) && DistinctIds(world.library) && forall song :: song in grouped ==> song in pending
    ensures tasks == TasksOf(world, rules, grouped)
  {
    var exclusions := LoadExclusions(pending, world.library);
    tasks := [];
    for k := 0 to |grouped|
      invariant tasks == TasksOf(world, rules, grouped[..k])
    {
      var song := grouped[k];
      assert song in pending;
      tasks := tasks + [Task(song, rules(song), Held(exclusions, song.id))];
    }
    assert grouped[..|grouped|] == grouped;
  }

  /** Group the songs, load their rejections and resolve them. */
  method ResolvePlaylist(
      reading: ReadStore, world: World, rules: Rules, pending: seq<Song>, today: Scorer, trial: Option<Scorer>,
      precheck: bool, decisions: seq<map<int, SongRow>>)
    returns (turns: Turns)
    requires reading.fetched == multiset{}
    requires DistinctSongs(pending) && DistinctIds(world.library)
    requires forall id :: id in world.artists ==> world.artists[id].id == id
    modifies reading
    ensures turns == TurnsOf(world, rules, pending, today, trial, precheck, decisions)
    ensures forall f :: reading.fetched[f] <= 1
  {
    var grouped := GroupByArtist(pending);
    GroupedSongs(pending);
    var tasks := BuildTasks(world, rules, pending, grouped);
    var outcomes := ResolveStage(reading, world, tasks, today, trial, precheck);
    assert SongsIn(tasks) == grouped;
    GroupedNeverReturns(pending);
    turns := Turns(IdsOf(grouped), outcomes, decisions);
  }

  /** Every pending song ends as `Ends` says. */
  ghost predicate PendingEnd(
      before: map<int, SongRow>, rows: map<int, SongRow>, world: World, rules: Rules, pending: seq<Song>,
      today: Scorer, trial: Option<Scorer>, precheck: bool, turns: Turns)
    requires turns.Valid() && |turns.ids| == |Grouped(pending)| && forall id :: id in turns.ids ==> id in before
  {
    forall k :: 0 <= k < |turns.ids| ==>
      var task := TaskOf(world, rules, Grouped(pending)[k]);
      && turns.ids[k] == task.song.id && turns.ids[k] in rows
      && Ends(before, rows[turns.ids[k]], world, task, Direct(world, task, today, trial, precheck), turns, k)
  }

  /** Every other song changes only by the user's decisions. */
  ghost predicate OthersEnd(before: map<int, SongRow>, rows: map<int, SongRow>, turns: Turns)
    requires turns.Valid()
  {
    forall id :: id in before && id !in turns.ids ==>
      id in rows && rows[id] == Decided(before[id], turns, 0, |turns.ids|, id)
  }

  lemma {:induction false} RunEnds(
      before: map<int, SongRow>, rows: map<int, SongRow>, world: World, rules: Rules, pending: seq<Song>, today: Scorer,
      trial: Option<Scorer>, precheck: bool, turns: Turns)
    requires Given(before, world, rules, pending, turns.decisions)
    requires turns == TurnsOf(world, rules, pending, today, trial, precheck, turns.decisions) && turns.Valid()
    requires |turns.ids| == |Grouped(pending)| && forall id :: id in turns.ids ==> id in before
    requires rows.Keys == before.Keys
    requires forall id :: id in rows ==> rows[id] == RowAfter(before, turns, |turns.ids|, id)
    ensures PendingEnd(before, rows, world, rules, pending, today, trial, precheck, turns)
    ensures OthersEnd(before, rows, turns)
  {
    forall k | 0 <= k < |turns.ids|
      ensures
        var task := TaskOf(world, rules, Grouped(pending)[k]);
        && turns.ids[k] == task.song.id && turns.ids[k] in rows
        && Ends(before, rows[turns.ids[k]], world, task, Direct(world, task, today, trial, precheck), turns, k)
    {
      assert turns.ids[k] in turns.ids;
      SongEnds(before, world, rules, pending, today, trial, precheck, turns, k);
    }
    forall id | id in before && id !in turns.ids
      ensures id in rows && rows[id] == Decided(before[id], turns, 0, |turns.ids|, id)
    {
      OthersUntouched(before, turns, |turns.ids|, id);
    }
  }

  /** What a whole run leaves of the rows: its turns are the pending songs, one each. */
  ghost predicate PlaylistEnds(
      before: map<int, SongRow>, rows: map<int, SongRow>, world: World, rules: Rules, pending: seq<Song>,
      today: Scorer, trial: Option<Scorer>, precheck: bool, turns: Turns)
  {
    && turns.Valid() && |turns.ids| == |pending| == |Grouped(pending)|
    && (forall song :: song in pending <==> song in Grouped(pending))
    && (forall id :: id in turns.ids ==> id in before)
    && rows.Keys == before.Keys
    && PendingEnd(before, rows, world, rules, pending, today, trial, precheck, turns)
    && OthersEnd(before, rows, turns)
  }

  /** A whole run. The counters sum to the pending songs; each of them ends with the user's last
      decision or with its own result, which names at most one file and only an allowed one; every
      other song changes only by the user's decisions; and each read of each artist is made of the
      store at most once. */
  method MatchPlaylist(
      store: SongStore, reading: ReadStore, world: World, rules: Rules, pending: seq<Song>, today: Scorer,
      trial: Option<Scorer>, precheck: bool, decisions: seq<map<int, SongRow>>)
    returns (counters: Counters, workIds: seq<string>)
    requires reading.fetched == multiset{}
    requires Given(store.rows, world, rules, pending, decisions)
    modifies store, reading
    ensures counters.Total() == |pending|
    ensures
      var turns := TurnsOf(world, rules, pending, today, trial, precheck, decisions);
      && PlaylistEnds(old(store.rows), store.rows, world, rules, pending, today, trial, precheck, turns)
      && counters == Tally(Fates(old(store.rows), turns, |pending|))
      && workIds == MatchedWorks(old(store.rows), turns, |pending|)
    ensures forall f :: reading.fetched[f] <= 1
  {
    ghost var before := store.rows;
    var turns := ResolvePlaylist(reading, world, rules, pending, today, trial, precheck, decisions);
    TurnsAreValid(before, world, rules, pending, turns);
    GroupedSongs(pending);
    counters, workIds := Run(store, turns);
    CountersSum(Fates(before, turns, |pending|));
    RunEnds(before, store.rows, world, rules, pending, today, trial, precheck, turns);
  }
}
