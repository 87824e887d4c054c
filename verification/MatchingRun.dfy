/** The persistence of a matching run (`match_identities_for_playlist`): every pending song's
    result is written through a guard, so a song the user decides meanwhile keeps that decision. */
module MatchingRun {
  import opened Wrappers
  import opened SongMatching
  import opened SongMatchingLaws

  /** A suggestion shown for a song. */
  datatype MatchRow = MatchRow(fileId: int, confidence: real, tier: MatchTier, workId: Option<string>)

  /** A song as stored, with its suggestions. */
  datatype SongRow = SongRow(
    status: MatchStatus, tier: Option<MatchTier>, reason: Option<Reason>, matches: seq<MatchRow>)

  /** What the chain gave a song: nothing at all when the song's artist has no row. */
  type Outcome = Option<Attempt<Option<MatchResult>>>

  /** The result a song is written with. */
  function ResultOf(outcome: Outcome): MatchResult {
    match outcome
    case None => NoMatch(NeedsReview, Unclassified, OrphanedIdentity)
    case Some(Unavailable) => NoMatch(NeedsReview, Unclassified, MbUnavailable)
    case Some(Answer(None)) => NoMatch(AutoRejected, Unclassified, NoCandidates)
    case Some(Answer(Some(result))) => result
  }

  /** The row a song is written as: its old suggestions are gone, and a result worth showing
      leaves one. */
  function Written(outcome: Outcome): SongRow {
    var result := ResultOf(outcome);
    var shown := result.fileId.Some? && result.status != AutoRejected;
    SongRow(result.status, Some(result.tier), result.reason,
            if !shown then []
            else [MatchRow(result.fileId.value, result.confidence, result.tier,
                           if result.workId == "" then None else Some(result.workId))])
  }

  // ---- The store ----

  /** The song rows and their match rows. Each method is one statement of a repository. */
  class SongStore {
    var rows: map<int, SongRow>

    constructor (rows: map<int, SongRow>)
      ensures this.rows == rows
    {
      this.rows := rows;
    }

    /** Updates a song that is still pending; false, changing nothing, otherwise. */
    method UpdateIfPending(
        id: int, status: MatchStatus, tier: MatchTier, reason: Option<Reason>)
      returns (updated: bool)
      modifies this
      ensures updated == (id in old(rows) && old(rows)[id].status == Pending)
      ensures
        rows == if updated then old(rows)[id := old(rows)[id].(status := status, tier := Some(tier), reason := reason)]
                else old(rows)
    {
      updated := id in rows && rows[id].status == Pending;
      if updated {
        rows := rows[id := rows[id].(status := status, tier := Some(tier), reason := reason)];
      }
    }

    method DeleteMatches(id: int)
      requires id in rows
      modifies this
      ensures rows == old(rows)[id := old(rows)[id].(matches := [])]
    {
      rows := rows[id := rows[id].(matches := [])];
    }

    method CreateMatch(id: int, row: MatchRow)
      requires id in rows
      modifies this
      ensures rows == old(rows)[id := old(rows)[id].(matches := old(rows)[id].matches + [row])]
    {
      rows := rows[id := rows[id].(matches := rows[id].matches + [row])];
    }

    /** Decisions the user makes while the run works. */
    method Decide(decisions: map<int, SongRow>)
      modifies this
      ensures rows == old(rows) + decisions
    {
      rows := rows + decisions;
    }

    /** Writes one song through the guard, replacing whatever it showed before. */
    method WriteSong(id: int, outcome: Outcome) returns (landed: bool)
      modifies this
      ensures landed == (id in old(rows) && old(rows)[id].status == Pending)
      ensures rows == if landed then old(rows)[id := Written(outcome)] else old(rows)
    {
      var result := ResultOf(outcome);
      landed := UpdateIfPending(id, result.status, result.tier, result.reason);
      if landed {
        ghost var cleared := old(rows)[id].(
          status := result.status, tier := Some(result.tier), reason := result.reason, matches := []);
        DeleteMatches(id);
        assert rows == old(rows)[id := cleared];
        if result.fileId.Some? && result.status != AutoRejected {
          CreateMatch(id, MatchRow(result.fileId.value, result.confidence, result.tier,
                                   if result.workId == "" then None else Some(result.workId)));
          assert [] + Written(outcome).matches == Written(outcome).matches;
          assert rows == old(rows)[id := cleared.(matches := Written(outcome).matches)];
        }
      }
    }
  }

  // ---- The run ----

  /** Which of the run's five counters a song goes to. */
  datatype Fate = AutoMatchedSong | AutoRejectedSong | ReviewSong | DeferredSong | DecidedMeanwhile

  function FateOf(landed: bool, outcome: Outcome): Fate {
    if !landed then DecidedMeanwhile
    else if ResultOf(outcome).status == AutoMatched then AutoMatchedSong
    else if ResultOf(outcome).status == AutoRejected then AutoRejectedSong
    else if outcome == Some(Unavailable) then DeferredSong
    else ReviewSong
  }

  datatype Counters = Counters(
    autoMatched: nat, autoRejected: nat, needsReview: nat, deferred: nat, decidedMeanwhile: nat)
  {
    function Add(fate: Fate): Counters {
      match fate
      case AutoMatchedSong => this.(autoMatched := autoMatched + 1)
      case AutoRejectedSong => this.(autoRejected := autoRejected + 1)
      case ReviewSong => this.(needsReview := needsReview + 1)
      case DeferredSong => this.(deferred := deferred + 1)
      case DecidedMeanwhile => this.(decidedMeanwhile := decidedMeanwhile + 1)
    }

    function Total(): nat {
      autoMatched + autoRejected + needsReview + deferred + decidedMeanwhile
    }
  }

  /** The songs' turns: before turn `k` the user makes the decisions `decisions[k]`, then song
      `ids[k]` is written with `outcomes[k]`. */
  datatype Turns = Turns(ids: seq<int>, outcomes: seq<Outcome>, decisions: seq<map<int, SongRow>>)
  {
    /** Each song has one turn. */
    ghost predicate Valid() {
      && |ids| == |outcomes| == |decisions|
      && (forall i, j :: 0 <= i < j < |ids| ==> ids[i] != ids[j])
    }
  }

  /** A song's row when turn `k` comes to write, and after the first `k` turns. */
  function RowAtTurn(rows: map<int, SongRow>, turns: Turns, k: nat, id: int): (row: SongRow)
    requires turns.Valid() && k < |turns.ids| && id in rows
    decreases k, 1
  {
    if id in turns.decisions[k] then turns.decisions[k][id] else RowAfter(rows, turns, k, id)
  }

  function RowAfter(rows: map<int, SongRow>, turns: Turns, k: nat, id: int): (row: SongRow)
    requires turns.Valid() && k <= |turns.ids| && id in rows
    decreases k, 0
  {
    if k == 0 then rows[id]
    else
      var row := RowAtTurn(rows, turns, k - 1, id);
      if turns.ids[k - 1] == id && row.status == Pending then Written(turns.outcomes[k - 1]) else row
  }

  function FateAt(rows: map<int, SongRow>, turns: Turns, k: nat): Fate
    requires turns.Valid() && k < |turns.ids| && turns.ids[k] in rows
  {
    FateOf(RowAtTurn(rows, turns, k, turns.ids[k]).status == Pending, turns.outcomes[k])
  }

  function Fates(rows: map<int, SongRow>, turns: Turns, k: nat): (fates: seq<Fate>)
    requires turns.Valid() && k <= |turns.ids| && forall id :: id in turns.ids ==> id in rows
    ensures |fates| == k
  {
    if k == 0 then [] else Fates(rows, turns, k - 1) + [FateAt(rows, turns, k - 1)]
  }

  function Tally(fates: seq<Fate>): Counters {
    if fates == [] then Counters(0, 0, 0, 0, 0) else Tally(fates[..|fates| - 1]).Add(fates[|fates| - 1])
  }

  /** The works of the songs newly auto-matched, in order. */
  function MatchedWorks(rows: map<int, SongRow>, turns: Turns, k: nat): seq<string>
    requires turns.Valid() && k <= |turns.ids| && forall id :: id in turns.ids ==> id in rows
  {
    if k == 0 then []
    else
      var work := ResultOf(turns.outcomes[k - 1]).workId;
      MatchedWorks(rows, turns, k - 1)
      + if FateAt(rows, turns, k - 1) == AutoMatchedSong && work != "" then [work] else []
  }

  /** The rows as the first `k` turns leave them. */
  ghost predicate After(rows: map<int, SongRow>, turns: Turns, k: nat, now: map<int, SongRow>)
    requires turns.Valid() && k <= |turns.ids|
  {
    now.Keys == rows.Keys && forall id :: id in rows ==> now[id] == RowAfter(rows, turns, k, id)
  }

  /** One turn takes the rows from one state to the next. */
  lemma {:induction false} TurnTaken(
      rows: map<int, SongRow>, turns: Turns, k: nat, before: map<int, SongRow>, now: map<int, SongRow>)
    requires turns.Valid() && k < |turns.ids| && turns.ids[k] in rows && After(rows, turns, k, before)
    requires forall id :: id in turns.decisions[k] ==> id in rows
    requires
      var decided := before + turns.decisions[k];
      var id := turns.ids[k];
      now == if id in decided && decided[id].status == Pending then decided[id := Written(turns.outcomes[k])]
             else decided
    ensures After(rows, turns, k + 1, now)
    ensures (turns.ids[k] in before + turns.decisions[k]
             && (before + turns.decisions[k])[turns.ids[k]].status == Pending)
       <==> RowAtTurn(rows, turns, k, turns.ids[k]).status == Pending
  {
    var decided := before + turns.decisions[k];
    assert forall id :: id in turns.decisions[k] ==> id in before;
    assert decided.Keys == before.Keys;
    forall id | id in rows ensures decided[id] == RowAtTurn(rows, turns, k, id) {
    }
  }

  lemma {:induction false} TurnCounted(rows: map<int, SongRow>, turns: Turns, k: nat)
    requires k < |turns.ids| && turns.ids[k] in rows
    requires turns.Valid() && k < |turns.ids| && forall id :: id in turns.ids ==> id in rows
    ensures
      var fate := FateAt(rows, turns, k);
      var work := ResultOf(turns.outcomes[k]).workId;
      && Tally(Fates(rows, turns, k + 1)) == Tally(Fates(rows, turns, k)).Add(fate)
      && MatchedWorks(rows, turns, k + 1)
         == MatchedWorks(rows, turns, k) + if fate == AutoMatchedSong && work != "" then [work] else []
  {
    assert Fates(rows, turns, k + 1)[..k] == Fates(rows, turns, k);
  }

  /** The run over all its pending songs. */
  method Run(store: SongStore, turns: Turns) returns (counters: Counters, workIds: seq<string>)
    requires turns.Valid()
    requires forall id :: id in turns.ids ==> id in store.rows
    requires forall k, id :: 0 <= k < |turns.decisions| && id in turns.decisions[k] ==> id in store.rows
    modifies store
    ensures store.rows.Keys == old(store.rows).Keys
    ensures forall id :: id in store.rows ==> store.rows[id] == RowAfter(old(store.rows), turns, |turns.ids|, id)
    ensures counters == Tally(Fates(old(store.rows), turns, |turns.ids|))
    ensures workIds == MatchedWorks(old(store.rows), turns, |turns.ids|)
  {
    ghost var rows := store.rows;
    counters, workIds := Counters(0, 0, 0, 0, 0), [];
    for k := 0 to |turns.ids|
      invariant After(rows, turns, k, store.rows)
      invariant counters == Tally(Fates(rows, turns, k))
      invariant workIds == MatchedWorks(rows, turns, k)
    {
      ghost var before := store.rows;
      store.Decide(turns.decisions[k]);
      var landed := store.WriteSong(turns.ids[k], turns.outcomes[k]);
      TurnTaken(rows, turns, k, before, store.rows);
      TurnCounted(rows, turns, k);
      var fate, work := FateOf(landed, turns.outcomes[k]), ResultOf(turns.outcomes[k]).workId;
      counters := counters.Add(fate);
      if fate == AutoMatchedSong && work != "" {
        workIds := workIds + [work];
      }
    }
  }

  // ---- What the run promises ----

  /** The five counters sum to the songs counted. */
  lemma {:induction false} CountersSum(fates: seq<Fate>)
    ensures Tally(fates).Total() == |fates|
  {
    if fates == [] {
    } else {
      CountersSum(fates[..|fates| - 1]);
    }
  }

  /** The user's last decision about a song before turns `from`, `from + 1`, ..., `k - 1`. */
  function LastDecision(turns: Turns, from: nat, k: nat, id: int): Option<SongRow>
    requires turns.Valid() && from <= k <= |turns.ids|
    decreases k - from
  {
    if k == from then None
    else if id in turns.decisions[k - 1] then Some(turns.decisions[k - 1][id])
    else LastDecision(turns, from, k - 1, id)
  }

  /** A row as the user's last decision before some turns leaves it. */
  function Decided(row: SongRow, turns: Turns, from: nat, k: nat, id: int): SongRow
    requires turns.Valid() && from <= k <= |turns.ids|
  {
    match LastDecision(turns, from, k, id)
    case Some(decided) => decided
    case None => row
  }

  /** Until its turn a song changes only by the user's decisions. */
  lemma {:induction false} UntilItsTurn(rows: map<int, SongRow>, turns: Turns, k: nat, turn: nat)
    requires turns.Valid() && k <= turn < |turns.ids| && turns.ids[turn] in rows
    ensures RowAfter(rows, turns, k, turns.ids[turn])
         == Decided(rows[turns.ids[turn]], turns, 0, k, turns.ids[turn])
  {
    if k == 0 {
    } else {
      UntilItsTurn(rows, turns, k - 1, turn);
    }
  }

  /** A row when its song's turn comes to write. */
  function Met(rows: map<int, SongRow>, turns: Turns, turn: nat): SongRow
    requires turns.Valid() && turn < |turns.ids| && turns.ids[turn] in rows
  {
    Decided(rows[turns.ids[turn]], turns, 0, turn + 1, turns.ids[turn])
  }

  lemma {:induction false} MetAtTurn(rows: map<int, SongRow>, turns: Turns, turn: nat)
    requires turns.Valid() && turn < |turns.ids| && turns.ids[turn] in rows
    ensures RowAtTurn(rows, turns, turn, turns.ids[turn]) == Met(rows, turns, turn)
  {
    UntilItsTurn(rows, turns, turn, turn);
  }

  /** A song ends with the user's last decision since its turn; else, if it was pending when its turn
      came, with exactly its own result; else as the user had decided it, suggestions untouched. */
  lemma {:induction false} UserDecisionWins(rows: map<int, SongRow>, turns: Turns, k: nat, turn: nat)
    requires turns.Valid() && turn < k <= |turns.ids| && turns.ids[turn] in rows
    ensures
      var met := Met(rows, turns, turn);
      var left := if met.status == Pending then Written(turns.outcomes[turn]) else met;
      RowAfter(rows, turns, k, turns.ids[turn]) == Decided(left, turns, turn + 1, k, turns.ids[turn])
    decreases k
  {
    if k == turn + 1 {
      MetAtTurn(rows, turns, turn);
    } else {
      UserDecisionWins(rows, turns, k - 1, turn);
    }
  }

  /** A song with no turn changes only by the user's decisions. */
  lemma {:induction false} OthersUntouched(rows: map<int, SongRow>, turns: Turns, k: nat, id: int)
    requires turns.Valid() && k <= |turns.ids| && id in rows && id !in turns.ids
    ensures RowAfter(rows, turns, k, id) == Decided(rows[id], turns, 0, k, id)
  {
    if k == 0 {
    } else {
      OthersUntouched(rows, turns, k - 1, id);
    }
  }

  /** A pending song counts as decided meanwhile exactly when the user's last decision before its turn
      left it decided. */
  lemma {:induction false} DecidedMeanwhileIsDecided(rows: map<int, SongRow>, turns: Turns, turn: nat)
    requires turns.Valid() && turn < |turns.ids|
    requires turns.ids[turn] in rows && rows[turns.ids[turn]].status == Pending
    ensures FateAt(rows, turns, turn) == DecidedMeanwhile
       <==> LastDecision(turns, 0, turn + 1, turns.ids[turn]).Some?
            && LastDecision(turns, 0, turn + 1, turns.ids[turn]).value.status != Pending
  {
    MetAtTurn(rows, turns, turn);
  }

  /** A written song has at most one suggestion, none when it was rejected, and it names a file
      of the library the song's exclusions allow. */
  lemma {:induction false} WrittenNamesAllowed(
      world: World, rules: seq<Option<LibraryFile>>, song: Song, exclusions: Exclusions, today: Scorer,
      trial: Option<Scorer>, precheck: bool)
    requires forall r :: r in rules && r.Some? ==> r.value in world.library
    ensures
      var outcome := if song.artistId !in world.artists then None
        else Some(Resolve(world, rules, song, world.artists[song.artistId], exclusions, today, trial, precheck));
      var row := Written(outcome);
      && |row.matches| <= 1
      && (row.status == AutoRejected ==> row.matches == [])
      && (row.status == AutoMatched ==> |row.matches| == 1)
      && (forall m :: m in row.matches ==> Allowed(world.library, exclusions, m.fileId))
  {
    if song.artistId in world.artists {
      var artist := world.artists[song.artistId];
      ResolveAllowed(world, rules, song, artist, exclusions, today, trial, precheck);
    }
  }

  // ---- What each outcome is written and counted as ----

  /** A song is deferred, sent to review or hidden without a file when MusicBrainz did not answer, its
      artist has no row or the chain ran out; else its row is the result's, with its one suggestion unless
      it is hidden. */
  lemma {:induction false} OutcomeIsWritten(outcome: Outcome)
    ensures outcome == Some(Unavailable) ==>
      Written(outcome) == SongRow(NeedsReview, Some(Unclassified), Some(MbUnavailable), [])
    ensures outcome == None ==> Written(outcome) == SongRow(NeedsReview, Some(Unclassified), Some(OrphanedIdentity), [])
    ensures outcome == Some(Answer(None)) ==>
      Written(outcome) == SongRow(AutoRejected, Some(Unclassified), Some(NoCandidates), [])
    ensures forall result: MatchResult :: outcome == Some(Answer(Some(result))) ==>
      var row := Written(outcome);
      && row.status == result.status && row.tier == Some(result.tier) && row.reason == result.reason
      && (row.matches == [] <==> result.fileId == None || result.status == AutoRejected)
      && (row.matches != [] ==>
            && |row.matches| == 1 && Some(row.matches[0].fileId) == result.fileId
            && row.matches[0].confidence == result.confidence && row.matches[0].tier == result.tier
            && (row.matches[0].workId == None <==> result.workId == "")
            && (result.workId != "" ==> row.matches[0].workId == Some(result.workId)))
  {
  }

  /** The counter a song goes to: by the row it was written as, and deferred apart from review. */
  lemma {:induction false} FateIsRow(landed: bool, outcome: Outcome)
    ensures FateOf(landed, outcome) == DecidedMeanwhile <==> !landed
    ensures FateOf(landed, outcome) == AutoMatchedSong <==> landed && Written(outcome).status == AutoMatched
    ensures FateOf(landed, outcome) == AutoRejectedSong <==> landed && Written(outcome).status == AutoRejected
    ensures FateOf(landed, outcome) == DeferredSong <==> landed && outcome == Some(Unavailable)
  {
  }

  /** How many songs had a fate. */
  function CountOf(fates: seq<Fate>, fate: Fate): nat {
    if fates == [] then 0
    else CountOf(fates[..|fates| - 1], fate) + if fates[|fates| - 1] == fate then 1 else 0
  }

  /** Each counter is the number of songs with its fate. */
  lemma {:induction false} CountersCount(fates: seq<Fate>)
    ensures
      var counters := Tally(fates);
      && counters.autoMatched == CountOf(fates, AutoMatchedSong)
      && counters.autoRejected == CountOf(fates, AutoRejectedSong)
      && counters.needsReview == CountOf(fates, ReviewSong)
      && counters.deferred == CountOf(fates, DeferredSong)
      && counters.decidedMeanwhile == CountOf(fates, DecidedMeanwhile)
  {
    if fates == [] {
    } else {
      CountersCount(fates[..|fates| - 1]);
    }
  }

  ghost predicate MatchedWith(rows: map<int, SongRow>, turns: Turns, j: nat, work: string)
    requires turns.Valid() && j < |turns.ids|
  {
    && turns.ids[j] in rows
    && FateAt(rows, turns, j) == AutoMatchedSong && ResultOf(turns.outcomes[j]).workId == work
  }

  /** The works returned are those of the songs that were auto-matched with one. */
  lemma {:induction false} MatchedWorksAre(rows: map<int, SongRow>, turns: Turns, k: nat, work: string)
    requires turns.Valid() && k <= |turns.ids| && forall id :: id in turns.ids ==> id in rows
    ensures work in MatchedWorks(rows, turns, k)
      <==> work != "" && exists j :: 0 <= j < k && MatchedWith(rows, turns, j, work)
  {
    if k == 0 {
    } else {
      MatchedWorksAre(rows, turns, k - 1, work);
      assert turns.ids[k - 1] in turns.ids;
      var last := ResultOf(turns.outcomes[k - 1]).workId;
      var more := if FateAt(rows, turns, k - 1) == AutoMatchedSong && last != "" then [last] else [];
      assert MatchedWorks(rows, turns, k) == MatchedWorks(rows, turns, k - 1) + more;
      assert work != "" ==> (work in more <==> MatchedWith(rows, turns, k - 1, work));
    }
  }

  // ---- Rejections, loaded in one batch ----

  function RejectedIn(songs: seq<Song>): set<int> {
    set song, id | song in songs && id in song.rejected :: id
  }

  /** One song's exclusions, from the files fetched for the whole batch. */
  function ExclusionsFrom(song: Song, files: map<int, LibraryFile>): Exclusions {
    Exclusions(set id | id in song.rejected,
               set id | id in song.rejected && id in files && files[id].workId != "" :: files[id].workId)
  }

  /** A song's loaded exclusions; none when it has no rejections. */
  function Held(exclusions: map<int, Exclusions>, id: int): Exclusions {
    if id in exclusions then exclusions[id] else NO_EXCLUSIONS
  }

  /** The library's files with these ids. */
  method FetchByIds(library: seq<LibraryFile>, ids: set<int>) returns (files: map<int, LibraryFile>)
    requires DistinctIds(library)
    ensures forall f :: f in library && f.id in ids ==> f.id in files && files[f.id] == f
    ensures forall id :: id in files ==> files[id] in library && files[id].id == id
  {
    files := map[];
    for i := 0 to |library|
      invariant forall j :: 0 <= j < i && library[j].id in ids ==>
        library[j].id in files && files[library[j].id] == library[j]
      invariant forall id :: id in files ==> files[id] in library && files[id].id == id
    {
      if library[i].id in ids {
        files := files[library[i].id := library[i]];
      }
    }
  }

  lemma {:induction false} BatchIsDirect(
      song: Song, library: seq<LibraryFile>, ids: set<int>, files: map<int, LibraryFile>)
    requires forall id :: id in song.rejected ==> id in ids
    requires forall f :: f in library && f.id in ids ==> f.id in files && files[f.id] == f
    requires forall id :: id in files ==> files[id] in library && files[id].id == id
    ensures ExclusionsFrom(song, files) == ExclusionsOf(song, library)
  {
    var batch, direct := ExclusionsFrom(song, files).workIds, ExclusionsOf(song, library).workIds;
    forall w | w in direct ensures w in batch {
      var f :| f in library && f.id in song.rejected && f.workId != "" && f.workId == w;
      assert files[f.id] == f;
    }
    forall w | w in batch ensures w in direct {
      var id :| id in song.rejected && id in files && files[id].workId != "" && files[id].workId == w;
      assert files[id] in library;
    }
  }

  /** The exclusions of every song with rejections, from one batch lookup; the others have none. */
  method LoadExclusions(songs: seq<Song>, library: seq<LibraryFile>) returns (exclusions: map<int, Exclusions>)
    requires forall i, j :: 0 <= i < j < |songs| ==> songs[i].id != songs[j].id
    requires DistinctIds(library)
    ensures forall i :: 0 <= i < |songs| ==>
      Held(exclusions, songs[i].id) == ExclusionsOf(songs[i], library)
  {
    var files := FetchByIds(library, RejectedIn(songs));
    exclusions := map[];
    for i := 0 to |songs|
      invariant forall j :: 0 <= j < i ==>
        Held(exclusions, songs[j].id) == ExclusionsOf(songs[j], library)
      invariant forall j :: i <= j < |songs| ==> songs[j].id !in exclusions
    {
      assert songs[i] in songs;
      if songs[i].rejected == [] {
        assert ExclusionsOf(songs[i], library) == NO_EXCLUSIONS;
        continue;
      }
      BatchIsDirect(songs[i], library, RejectedIn(songs), files);
      exclusions := exclusions[songs[i].id := ExclusionsFrom(songs[i], files)];
    }
  }
}
