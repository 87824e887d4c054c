/** What the matching chain promises: the policy over the scores, that skipping the MusicBrainz
    search never changes a result, and that no result names an excluded file. */
module SongMatchingLaws {
  import opened Wrappers
  import opened SongMatching

  // ---- Ranking ----

  ghost predicate Ranked(title: string, s: seq<LibraryFile>, scorer: Scorer) {
    forall i, j :: 0 <= i < j < |s| ==> Outranks(title, s[i], s[j], scorer)
  }

  lemma {:induction false} InsertRankedKeeps(title: string, file: LibraryFile, ranked: seq<LibraryFile>, scorer: Scorer)
    requires Ranked(title, ranked, scorer)
    ensures Ranked(title, InsertRanked(title, file, ranked, scorer), scorer)
  {
    if ranked != [] && !Outranks(title, file, ranked[0], scorer) {
      var rest := InsertRanked(title, file, ranked[1..], scorer);
      InsertRankedKeeps(title, file, ranked[1..], scorer);
      forall j | 0 <= j < |rest| ensures Outranks(title, ranked[0], rest[j], scorer) {
        assert rest[j] in multiset(rest);
        assert rest[j] == file || rest[j] in ranked[1..];
      }
    }
  }

  lemma {:induction false} RankCandidatesRanked(title: string, candidates: seq<LibraryFile>, scorer: Scorer)
    ensures Ranked(title, RankCandidates(title, candidates, scorer), scorer)
  {
    if candidates == [] {
    } else {
      RankCandidatesRanked(title, candidates[1..], scorer);
      InsertRankedKeeps(title, candidates[0], RankCandidates(title, candidates[1..], scorer), scorer);
    }
  }

  /** The ranking's head is a candidate no other outranks. */
  lemma {:induction false} RankedHead(title: string, candidates: seq<LibraryFile>, scorer: Scorer)
    requires candidates != []
    ensures
      var top := RankCandidates(title, candidates, scorer)[0];
      && top in candidates
      && forall f :: f in candidates ==> scorer.rank(title, f).best <= scorer.rank(title, top).best
  {
    var ranked := RankCandidates(title, candidates, scorer);
    RankCandidatesRanked(title, candidates, scorer);
    assert ranked[0] in multiset(candidates);
    forall f | f in candidates ensures scorer.rank(title, f).best <= scorer.rank(title, ranked[0]).best {
      assert f in multiset(ranked);
    }
  }

  lemma {:induction false} SameIdSameFile(files: seq<LibraryFile>, f: LibraryFile, g: LibraryFile)
    requires DistinctIds(files) && f in files && g in files && f.id == g.id
    ensures f == g
  {
  }

  lemma {:induction false} OnceEach(files: seq<LibraryFile>, file: LibraryFile)
    requires DistinctIds(files)
    ensures multiset(files)[file] <= 1
  {
    if files == [] {
    } else {
      assert files == [files[0]] + files[1..];
      OnceEach(files[1..], file);
      forall i | 0 < i < |files| ensures files[i] != files[0] {
        assert files[i].id != files[0].id;
      }
    }
  }

  /** The runner-up is the best of the other candidates. */
  lemma {:induction false} RankedSecond(title: string, candidates: seq<LibraryFile>, scorer: Scorer)
    requires DistinctIds(candidates) && |candidates| > 1
    ensures
      var ranked := RankCandidates(title, candidates, scorer);
      && ranked[1] in candidates && ranked[1].id != ranked[0].id
      && forall f :: f in candidates && f.id != ranked[0].id ==>
        scorer.rank(title, f).best <= scorer.rank(title, ranked[1]).best
  {
    var ranked := RankCandidates(title, candidates, scorer);
    RankCandidatesRanked(title, candidates, scorer);
    assert ranked[0] in multiset(candidates) && ranked[1] in multiset(candidates);
    OnceEach(candidates, ranked[0]);
    assert ranked == [ranked[0]] + ranked[1..];
    assert ranked[1] in ranked[1..];
    assert multiset(ranked)[ranked[0]] <= 1;
    forall f | f in candidates && f.id != ranked[0].id
      ensures scorer.rank(title, f).best <= scorer.rank(title, ranked[1]).best
    {
      assert f in multiset(ranked);
      var i :| 0 <= i < |ranked| && ranked[i] == f;
      assert i == 1 || Outranks(title, ranked[1], ranked[i], scorer);
    }
  }

  /** Every other candidate is at least the gap behind the result's file. */
  ghost predicate Leads(title: string, candidates: seq<LibraryFile>, result: MatchResult, scorer: Scorer) {
    forall f :: f in candidates && Some(f.id) != result.fileId ==>
      scorer.rank(title, f).best <= result.confidence - MB_SCORE_GAP
  }

  /** The result names a candidate of the highest score. */
  lemma {:induction false} ScoreNamesBest(title: string, candidates: seq<LibraryFile>, tier: MatchTier, scorer: Scorer)
    requires candidates != []
    ensures
      var result := ScoreCandidates(title, candidates, tier, scorer);
      && (exists f :: f in candidates && result.fileId == Some(f.id) && result.workId == f.workId
                      && result.confidence == scorer.rank(title, f).best)
      && (forall f :: f in candidates ==> scorer.rank(title, f).best <= result.confidence)
  {
    RankedHead(title, candidates, scorer);
  }

  /** The auto-match policy, read off the candidates alone: the result auto-matches exactly when
      its score is near literal, or is strong and leads every one of at least one competitor by
      the gap; it is hidden exactly when it does not and its score is under the floor. */
  ghost predicate FollowsPolicy(title: string, candidates: seq<LibraryFile>, result: MatchResult, scorer: Scorer) {
    && (result.status == AutoMatched <==>
         || result.confidence >= MB_AUTO_LINK_SCORE
         || (|candidates| > 1 && result.confidence >= scorer.strong as real
             && Leads(title, candidates, result, scorer)))
    && (result.status == AutoRejected <==>
         result.status != AutoMatched && result.confidence < SONG_MIN_PRESENTATION_SCORE)
  }

  /** The gap to the runner-up is the gap to every competitor. */
  lemma {:induction false} GapIsLead(title: string, candidates: seq<LibraryFile>, tier: MatchTier, scorer: Scorer)
    requires DistinctIds(candidates) && |candidates| > 1
    ensures
      var ranked := RankCandidates(title, candidates, scorer);
      var result := ScoreCandidates(title, candidates, tier, scorer);
      result.confidence - scorer.rank(title, ranked[1]).best >= MB_SCORE_GAP
      <==> Leads(title, candidates, result, scorer)
  {
    RankedSecond(title, candidates, scorer);
  }

  /** Scoring candidates that list each file once follows the policy. */
  lemma {:induction false} ScorePolicy(title: string, candidates: seq<LibraryFile>, tier: MatchTier, scorer: Scorer)
    requires candidates != [] && DistinctIds(candidates)
    ensures FollowsPolicy(title, candidates, ScoreCandidates(title, candidates, tier, scorer), scorer)
  {
    if |candidates| > 1 {
      GapIsLead(title, candidates, tier, scorer);
    }
  }

  lemma {:induction false} RankedHeads(
      title: string, a: seq<LibraryFile>, b: seq<LibraryFile>, files: seq<LibraryFile>, scorer: Scorer)
    requires multiset(a) == multiset(b) && a != [] && b != []
    requires Ranked(title, a, scorer) && Ranked(title, b, scorer)
    requires DistinctIds(files) && forall f :: f in a ==> f in files
    ensures a[0] == b[0]
  {
    assert a[0] in multiset(b) && b[0] in multiset(a);
    assert Outranks(title, a[0], b[0], scorer) && Outranks(title, b[0], a[0], scorer);
    SameIdSameFile(files, a[0], b[0]);
  }

  lemma {:induction false} TailsAgree(a: seq<LibraryFile>, b: seq<LibraryFile>)
    requires multiset(a) == multiset(b) && a != [] && b != [] && a[0] == b[0]
    ensures multiset(a[1..]) == multiset(b[1..])
    ensures forall f :: f in multiset(a[1..]) ==> f in multiset(a)
  {
    assert a == [a[0]] + a[1..] && b == [b[0]] + b[1..];
    assert multiset(a[1..]) == multiset(a) - multiset{a[0]};
    assert multiset(b[1..]) == multiset(b) - multiset{b[0]};
  }

  lemma {:induction false} RankedUnique(
      title: string, a: seq<LibraryFile>, b: seq<LibraryFile>, files: seq<LibraryFile>, scorer: Scorer)
    requires multiset(a) == multiset(b) && Ranked(title, a, scorer) && Ranked(title, b, scorer)
    requires DistinctIds(files) && forall f :: f in multiset(a) ==> f in files
    ensures a == b
  {
    SameSize(a, b);
    if a == [] {
    } else {
      forall f | f in a ensures f in files {
        assert f in multiset(a);
      }
      RankedHeads(title, a, b, files, scorer);
      TailsAgree(a, b);
      RankedUnique(title, a[1..], b[1..], files, scorer);
      assert a == [a[0]] + a[1..] && b == [b[0]] + b[1..];
    }
  }

  /** The order the candidates are read in never decides the match. */
  lemma {:induction false} OrderNeverDecides(
      title: string, a: seq<LibraryFile>, b: seq<LibraryFile>, tier: MatchTier, scorer: Scorer)
    requires a != [] && multiset(a) == multiset(b) && DistinctIds(a)
    ensures b != [] && ScoreCandidates(title, a, tier, scorer) == ScoreCandidates(title, b, tier, scorer)
  {
    SameSize(a, b);
    RankCandidatesRanked(title, a, scorer);
    RankCandidatesRanked(title, b, scorer);
    RankedUnique(title, RankCandidates(title, a, scorer), RankCandidates(title, b, scorer), a, scorer);
  }

  // ---- Every step's candidates list each file once ----

  lemma {:induction false} FilterKeepsDistinct(s: seq<LibraryFile>, keep: LibraryFile -> bool)
    requires DistinctIds(s)
    ensures DistinctIds(Filter(s, keep))
  {
    if s == [] {
    } else {
      FilterKeepsDistinct(s[1..], keep);
      var rest := Filter(s[1..], keep);
      forall i | 0 <= i < |rest| ensures rest[i].id != s[0].id {
        assert rest[i] in s[1..];
      }
    }
  }

  lemma {:induction false} EligibleDistinct(candidates: seq<LibraryFile>, artistName: string, exclusions: Exclusions)
    requires DistinctIds(candidates)
    ensures DistinctIds(Eligible(candidates, artistName, exclusions))
  {
    FilterKeepsDistinct(candidates, (f: LibraryFile) => f.artistName == Some(artistName) && exclusions.Allows(f));
  }

  lemma {:induction false} ReadsDistinct(library: seq<LibraryFile>, mbid: string, artistName: string)
    requires DistinctIds(library)
    ensures DistinctIds(FilesByArtistMbid(library, mbid)) && DistinctIds(FilesByName(library, artistName))
  {
    FilterKeepsDistinct(library, (f: LibraryFile) => TaggedBy(f, mbid));
    FilterKeepsDistinct(library, (f: LibraryFile) => f.present && f.artistName == Some(artistName));
  }

  /** Step A follows the policy over the artist's tagged files. */
  lemma {:induction false} StepAFollowsPolicy(
      world: World, mbid: string, song: Song, artist: Artist, exclusions: Exclusions, scorer: Scorer)
    requires DistinctIds(world.library)
    ensures
      var candidates := Eligible(FilesByArtistMbid(world.library, mbid), artist.normalizedName, exclusions);
      candidates != [] ==>
        FollowsPolicy(song.title, candidates, ScoreCandidates(song.title, candidates, MbidExact, scorer), scorer)
  {
    var candidates := Eligible(FilesByArtistMbid(world.library, mbid), artist.normalizedName, exclusions);
    ReadsDistinct(world.library, mbid, artist.normalizedName);
    EligibleDistinct(FilesByArtistMbid(world.library, mbid), artist.normalizedName, exclusions);
    if candidates != [] {
      ScorePolicy(song.title, candidates, MbidExact, scorer);
    }
  }

  /** Step B follows it over the files the recordings map to, whatever the library. */
  lemma {:induction false} StepBFollowsPolicy(
      world: World, mbid: string, song: Song, artist: Artist, exclusions: Exclusions, scorer: Scorer, precheck: bool)
    ensures
      match RecordingSearch(world, mbid, song, artist, exclusions, scorer, precheck)
      case Answer(Some(result)) =>
        && world.musicbrainz(mbid, song.title).Recordings?
        && var ids := world.musicbrainz(mbid, song.title).ids;
           FollowsPolicy(song.title, Eligible(RecordingFiles(world.library, ids), artist.normalizedName, exclusions),
                         result, scorer)
      case _ => true
  {
    if world.musicbrainz(mbid, song.title).Recordings? {
      var files := RecordingFiles(world.library, world.musicbrainz(mbid, song.title).ids);
      var candidates := Eligible(files, artist.normalizedName, exclusions);
      RecordingFilesAre(world.library, world.musicbrainz(mbid, song.title).ids);
      EligibleDistinct(files, artist.normalizedName, exclusions);
      if candidates != [] {
        ScorePolicy(song.title, candidates, MbidSearch, scorer);
      }
    }
  }

  /** Step C follows it over the artist's files by name. */
  lemma {:induction false} StepCFollowsPolicy(
      world: World, song: Song, artist: Artist, exclusions: Exclusions, scorer: Scorer)
    requires DistinctIds(world.library)
    ensures
      var candidates := Eligible(FilesByName(world.library, artist.normalizedName), artist.normalizedName, exclusions);
      match NameResult(world, song, artist, exclusions, scorer)
      case Some(result) => FollowsPolicy(song.title, candidates, result, scorer)
      case None => candidates == []
  {
    var files := FilesByName(world.library, artist.normalizedName);
    ReadsDistinct(world.library, "", artist.normalizedName);
    EligibleDistinct(files, artist.normalizedName, exclusions);
    if Eligible(files, artist.normalizedName, exclusions) != [] {
      ScorePolicy(song.title, Eligible(files, artist.normalizedName, exclusions), LocalFuzzy, scorer);
    }
  }

  // ---- Skipping the recording search ----

  /** A subset of the candidates never scores higher. */
  lemma {:induction false} SubsetScoresNoHigher(
      title: string, some: seq<LibraryFile>, all: seq<LibraryFile>, tier: MatchTier, other: MatchTier, scorer: Scorer)
    requires some != [] && all != [] && forall f :: f in some ==> f in all
    ensures ScoreCandidates(title, some, tier, scorer).confidence
         <= ScoreCandidates(title, all, other, scorer).confidence
  {
    ScoreNamesBest(title, some, tier, scorer);
    ScoreNamesBest(title, all, other, scorer);
  }

  /** When the artist has no file the search could add, Step B's candidates are all Step A's. */
  lemma {:induction false} SearchAddsNothing(
      library: seq<LibraryFile>, recordings: seq<Option<string>>, artistName: string, mbid: string,
      exclusions: Exclusions)
    requires !HasFileBeyond(library, artistName, mbid)
    ensures forall f :: f in Eligible(RecordingFiles(library, recordings), artistName, exclusions)
                    ==> f in Eligible(FilesByArtistMbid(library, mbid), artistName, exclusions)
  {
  }

  /** Then whatever the search finds is no better than Step A. */
  lemma {:induction false} SearchNeverWins(
      world: World, mbid: string, song: Song, artist: Artist, exclusions: Exclusions, scorer: Scorer)
    requires !HasFileBeyond(world.library, artist.normalizedName, mbid)
    ensures
      var tagged := Eligible(FilesByArtistMbid(world.library, mbid), artist.normalizedName, exclusions);
      match RecordingSearch(world, mbid, song, artist, exclusions, scorer, false)
      case Answer(Some(found)) =>
        tagged != [] && found.confidence <= ScoreCandidates(song.title, tagged, MbidExact, scorer).confidence
      case _ => true
  {
    match world.musicbrainz(mbid, song.title)
    case NoAnswer =>
    case Recordings(ids) =>
      var name := artist.normalizedName;
      var tagged := Eligible(FilesByArtistMbid(world.library, mbid), name, exclusions);
      var found := Eligible(RecordingFiles(world.library, ids), name, exclusions);
      if found != [] {
        SearchAddsNothing(world.library, ids, name, mbid, exclusions);
        assert found[0] in tagged;
        SubsetScoresNoHigher(song.title, found, tagged, MbidSearch, MbidExact, scorer);
      }
  }

  lemma {:induction false} PrecheckKeepsMbidSteps(
      world: World, mbid: string, song: Song, artist: Artist, exclusions: Exclusions, scorer: Scorer)
    ensures
      var searched := MbidSteps(world, mbid, song, artist, exclusions, scorer, false);
      searched.Answer? ==> MbidSteps(world, mbid, song, artist, exclusions, scorer, true) == searched
  {
    if !HasFileBeyond(world.library, artist.normalizedName, mbid) {
      SearchNeverWins(world, mbid, song, artist, exclusions, scorer);
    }
  }

  lemma {:induction false} PrecheckKeepsTier1(
      world: World, song: Song, artist: Artist, exclusions: Exclusions, scorer: Scorer)
    ensures
      var searched := ResolvedArtist(world, song, artist, exclusions, scorer, false);
      searched.Answer? ==> ResolvedArtist(world, song, artist, exclusions, scorer, true) == searched
  {
    if artist.id in world.targets {
      var mbid := ArtistMbid(world, world.targets[artist.id]);
      if mbid.Some? {
        PrecheckKeepsMbidSteps(world, mbid.value, song, artist, exclusions, scorer);
      }
    }
  }

  lemma {:induction false} PrecheckKeepsChain(
      world: World, rules: seq<Option<LibraryFile>>, song: Song, artist: Artist, exclusions: Exclusions, scorer: Scorer)
    ensures
      var searched := Chain(world, rules, song, artist, exclusions, scorer, false);
      searched.Answer? ==> Chain(world, rules, song, artist, exclusions, scorer, true) == searched
  {
    PrecheckKeepsTier1(world, song, artist, exclusions, scorer);
  }

  /** Not searching where the pre-check says so costs nothing: whatever MusicBrainz would have answered,
      the whole chain, in trial mode too, decides the same with the pre-check as without it. */
  lemma {:induction false} PrecheckNeverChangesResult(
      world: World, rules: seq<Option<LibraryFile>>, song: Song, artist: Artist, exclusions: Exclusions,
      today: Scorer, trial: Option<Scorer>)
    ensures
      var searched := Resolve(world, rules, song, artist, exclusions, today, trial, false);
      searched.Answer? ==> Resolve(world, rules, song, artist, exclusions, today, trial, true) == searched
  {
    PrecheckKeepsChain(world, rules, song, artist, exclusions, today);
    if trial.Some? {
      PrecheckKeepsChain(world, rules, song, artist, exclusions, trial.value);
    }
  }

  /** The artist is resolved to an MBID, through the local catalog or not. */
  ghost predicate HasMbid(world: World, artist: Artist, mbid: string) {
    && artist.Resolved()
    && artist.id in world.targets && world.targets[artist.id] != ""
    && ArtistMbid(world, world.targets[artist.id]) == Some(mbid)
  }

  /** The artist has no MBID to search with, or no file a search with it could add: every present
      file of its name with a recording is tagged with its MBID already. */
  ghost predicate NothingToAdd(world: World, artist: Artist) {
    artist.id in world.targets && world.targets[artist.id] != "" ==>
      var mbid := ArtistMbid(world, world.targets[artist.id]);
      mbid.Some? ==> !HasFileBeyond(world.library, artist.normalizedName, mbid.value)
  }

  lemma {:induction false} Tier1SurvivesOutage(
      world: World, song: Song, artist: Artist, exclusions: Exclusions, scorer: Scorer)
    requires NothingToAdd(world, artist)
    ensures ResolvedArtist(world, song, artist, exclusions, scorer, true).Answer?
  {
    if artist.id in world.targets && world.targets[artist.id] != "" {
      var mbid := ArtistMbid(world, world.targets[artist.id]);
      assert mbid.Some? ==> RecordingSearch(world, mbid.value, song, artist, exclusions, scorer, true) == Answer(None);
    }
  }

  lemma {:induction false} ChainSurvivesOutage(
      world: World, rules: seq<Option<LibraryFile>>, song: Song, artist: Artist, exclusions: Exclusions, scorer: Scorer)
    requires NothingToAdd(world, artist)
    ensures Chain(world, rules, song, artist, exclusions, scorer, true).Answer?
  {
    Tier1SurvivesOutage(world, song, artist, exclusions, scorer);
  }

  /** With the pre-check, an outage defers no song of an artist the search has nothing to add for, in
      trial mode either. */
  lemma {:induction false} PrecheckSurvivesOutage(
      world: World, rules: seq<Option<LibraryFile>>, song: Song, artist: Artist, exclusions: Exclusions,
      today: Scorer, trial: Option<Scorer>)
    requires NothingToAdd(world, artist)
    ensures Resolve(world, rules, song, artist, exclusions, today, trial, true).Answer?
  {
    ChainSurvivesOutage(world, rules, song, artist, exclusions, today);
    if trial.Some? {
      ChainSurvivesOutage(world, rules, song, artist, exclusions, trial.value);
    }
  }

  lemma {:induction false} Tier1KeepsMatch(world: World, song: Song, artist: Artist, mbid: string, scorer: Scorer)
    requires HasMbid(world, artist, mbid)
    requires
      var found := MbidSteps(world, mbid, song, artist, NO_EXCLUSIONS, scorer, true);
      found.Answer? && found.value.Some? && found.value.value.status == AutoMatched
    ensures ResolvedArtist(world, song, artist, NO_EXCLUSIONS, scorer, true)
         == MbidSteps(world, mbid, song, artist, NO_EXCLUSIONS, scorer, true)
  {
  }

  lemma {:induction false} NameResultTier(
      world: World, song: Song, artist: Artist, exclusions: Exclusions, scorer: Scorer)
    ensures
      var name := NameResult(world, song, artist, exclusions, scorer);
      name.Some? ==> name.value.tier == LocalFuzzy
  {
  }

  lemma {:induction false} NoSearchTier(found: Option<MatchResult>, name: Option<MatchResult>)
    requires found.Some? ==> found.value.status != AutoMatched && found.value.tier == MbidExact
    requires name.Some? ==> name.value.tier == LocalFuzzy
    ensures WithNames(found, name).status != AutoMatched || WithNames(found, name).tier != MbidSearch
  {
  }

  lemma {:induction false} Tier1WithoutMatch(world: World, song: Song, artist: Artist, mbid: string, scorer: Scorer)
    requires HasMbid(world, artist, mbid)
    requires
      var found := MbidSteps(world, mbid, song, artist, NO_EXCLUSIONS, scorer, true);
      && found.Answer?
      && (found.value.Some? ==> found.value.value.status != AutoMatched && found.value.value.tier == MbidExact)
    ensures
      var result := ResolvedArtist(world, song, artist, NO_EXCLUSIONS, scorer, true);
      result.Answer? && result.value.Some?
      && (result.value.value.status != AutoMatched || result.value.value.tier != MbidSearch)
  {
    var found := MbidSteps(world, mbid, song, artist, NO_EXCLUSIONS, scorer, true);
    NameResultTier(world, song, artist, NO_EXCLUSIONS, scorer);
    NoSearchTier(found.value, NameResult(world, song, artist, NO_EXCLUSIONS, scorer));
  }

  lemma {:induction false} LowScores(
      world: World, mbid: string, song: Song, artist: Artist, file: LibraryFile, scorer: Scorer)
    requires Beyond(file, artist.normalizedName, mbid) && scorer.strong == 80
    requires forall f :: scorer.rank(song.title, f).best == if f == file then 100.0 else 0.0
    ensures
      var tagged := Eligible(FilesByArtistMbid(world.library, mbid), artist.normalizedName, NO_EXCLUSIONS);
      tagged != [] ==>
        && ScoreCandidates(song.title, tagged, MbidExact, scorer).status != AutoMatched
        && ScoreCandidates(song.title, tagged, MbidExact, scorer).confidence == 0.0
  {
    var tagged := Eligible(FilesByArtistMbid(world.library, mbid), artist.normalizedName, NO_EXCLUSIONS);
    if tagged != [] {
      RankedHead(song.title, tagged, scorer);
    }
  }

  lemma {:induction false} FoundByRecording(library: seq<LibraryFile>, file: LibraryFile)
    requires file in library && file.present && file.recordingMbid.Some? && DistinctIds(library)
    ensures file in RecordingFiles(library, [file.recordingMbid])
  {
    var found := RecordingFiles(library, [file.recordingMbid]);
    RecordingFilesAre(library, [file.recordingMbid]);
    assert Recorded(file, library, [file.recordingMbid]);
    var k :| 0 <= k < |found| && found[k].id == file.id;
    assert found[k] in found;
    SameIdSameFile(library, found[k], file);
  }

  /** The search finds the file, and its score is the highest there is. */
  lemma {:induction false} SearchScores(
      world: World, song: Song, artist: Artist, mbid: string, file: LibraryFile, scorer: Scorer)
    requires file in world.library && Beyond(file, artist.normalizedName, mbid) && DistinctIds(world.library)
    requires world.musicbrainz(mbid, song.title) == Recordings([file.recordingMbid])
    requires scorer.rank(song.title, file).best == 100.0
    ensures
      var search := RecordingSearch(world, mbid, song, artist, NO_EXCLUSIONS, scorer, true);
      && search.Answer? && search.value.Some?
      && search.value.value.status == AutoMatched && search.value.value.tier == MbidSearch
      && search.value.value.confidence >= 100.0
  {
    var found := Eligible(RecordingFiles(world.library, [file.recordingMbid]), artist.normalizedName, NO_EXCLUSIONS);
    FoundByRecording(world.library, file);
    assert file in found;
    assert HasFileBeyond(world.library, artist.normalizedName, mbid);
    ScoreNamesBest(song.title, found, MbidSearch, scorer);
  }

  lemma {:induction false} SearchFinds(
      world: World, song: Song, artist: Artist, mbid: string, file: LibraryFile, scorer: Scorer)
    requires file in world.library && Beyond(file, artist.normalizedName, mbid) && DistinctIds(world.library)
    requires world.musicbrainz(mbid, song.title) == Recordings([file.recordingMbid]) && scorer.strong == 80
    requires forall f :: scorer.rank(song.title, f).best == if f == file then 100.0 else 0.0
    ensures
      var found := MbidSteps(world, mbid, song, artist, NO_EXCLUSIONS, scorer, true);
      && found.Answer? && found.value.Some?
      && found.value.value.status == AutoMatched && found.value.value.tier == MbidSearch
  {
    SearchScores(world, song, artist, mbid, file, scorer);
    LowScores(world, mbid, song, artist, file, scorer);
  }

  lemma {:induction false} WithoutSearch(
      world: World, song: Song, artist: Artist, mbid: string, file: LibraryFile, scorer: Scorer)
    requires Beyond(file, artist.normalizedName, mbid)
    requires world.musicbrainz(mbid, song.title) == Recordings([]) && scorer.strong == 80
    requires forall f :: scorer.rank(song.title, f).best == if f == file then 100.0 else 0.0
    ensures
      var found := MbidSteps(world, mbid, song, artist, NO_EXCLUSIONS, scorer, true);
      && found.Answer?
      && (found.value.Some? ==> found.value.value.status != AutoMatched && found.value.value.tier == MbidExact)
  {
    assert RecordingFiles(world.library, []) == [];
    LowScores(world, mbid, song, artist, file, scorer);
  }

  /** The pre-check is exact: when the artist does have such a file, some answer and some scores
      make the search decide the song, so skipping it there would change the result. */
  lemma {:induction false} SearchCanDecide(world: World, song: Song, artist: Artist, mbid: string, file: LibraryFile)
    returns (answering: World, silent: World, scorer: Scorer)
    requires file in world.library && Beyond(file, artist.normalizedName, mbid) && DistinctIds(world.library)
    requires HasMbid(world, artist, mbid)
    ensures answering == world.(musicbrainz := answering.musicbrainz)
    ensures silent == world.(musicbrainz := silent.musicbrainz)
    ensures ResolvedArtist(silent, song, artist, NO_EXCLUSIONS, scorer, true).Answer?
    ensures ResolvedArtist(answering, song, artist, NO_EXCLUSIONS, scorer, true)
         != ResolvedArtist(silent, song, artist, NO_EXCLUSIONS, scorer, true)
  {
    answering := world.(musicbrainz := (m, t) => Recordings([file.recordingMbid]));
    silent := world.(musicbrainz := (m, t) => Recordings([]));
    scorer := Scorer((t, f) => if f == file then Rank(100.0, 100.0) else Rank(0.0, 0.0), 80);
    SearchFinds(answering, song, artist, mbid, file, scorer);
    Tier1KeepsMatch(answering, song, artist, mbid, scorer);
    WithoutSearch(silent, song, artist, mbid, file, scorer);
    Tier1WithoutMatch(silent, song, artist, mbid, scorer);
  }

  // ---- No result names an excluded file ----

  /** A file the song's exclusions allow, of the library. */
  ghost predicate Allowed(library: seq<LibraryFile>, exclusions: Exclusions, id: int) {
    exists f :: f in library && f.id == id && exclusions.Allows(f)
  }

  /** A file the result names is allowed, and a match names one. */
  ghost predicate NamesAllowed(library: seq<LibraryFile>, exclusions: Exclusions, result: MatchResult) {
    && (result.fileId.Some? ==> Allowed(library, exclusions, result.fileId.value))
    && (result.status == AutoMatched ==> result.fileId.Some?)
  }

  ghost predicate AnyNamesAllowed(library: seq<LibraryFile>, exclusions: Exclusions, result: Option<MatchResult>) {
    result.Some? ==> NamesAllowed(library, exclusions, result.value)
  }

  lemma {:induction false} ScoreNamesAllowed(
      library: seq<LibraryFile>, candidates: seq<LibraryFile>, artistName: string, exclusions: Exclusions,
      title: string, tier: MatchTier, scorer: Scorer)
    requires Eligible(candidates, artistName, exclusions) != [] && forall f :: f in candidates ==> f in library
    ensures
      var eligible := Eligible(candidates, artistName, exclusions);
      NamesAllowed(library, exclusions, ScoreCandidates(title, eligible, tier, scorer))
  {
    ScoreNamesBest(title, Eligible(candidates, artistName, exclusions), tier, scorer);
  }

  lemma {:induction false} NameResultAllowed(
      world: World, song: Song, artist: Artist, exclusions: Exclusions, scorer: Scorer)
    ensures
      var result := NameResult(world, song, artist, exclusions, scorer);
      AnyNamesAllowed(world.library, exclusions, result)
  {
    var files := FilesByName(world.library, artist.normalizedName);
    if Eligible(files, artist.normalizedName, exclusions) != [] {
      ScoreNamesAllowed(world.library, files, artist.normalizedName, exclusions, song.title, LocalFuzzy, scorer);
    }
  }

  lemma {:induction false} EscalateAllowed(
      library: seq<LibraryFile>, exclusions: Exclusions, local: MatchResult, search: Attempt<Option<MatchResult>>)
    requires NamesAllowed(library, exclusions, local)
    requires search.Answer? ==> AnyNamesAllowed(library, exclusions, search.value)
    ensures Escalate(local, search).Answer? ==> AnyNamesAllowed(library, exclusions, Escalate(local, search).value)
  {
  }

  lemma {:induction false} SearchAllowed(
      world: World, mbid: string, song: Song, artist: Artist, exclusions: Exclusions, scorer: Scorer, precheck: bool)
    ensures
      var result := RecordingSearch(world, mbid, song, artist, exclusions, scorer, precheck);
      result.Answer? ==> AnyNamesAllowed(world.library, exclusions, result.value)
  {
    match world.musicbrainz(mbid, song.title)
    case NoAnswer =>
    case Recordings(ids) =>
      var found := RecordingFiles(world.library, ids);
      if Eligible(found, artist.normalizedName, exclusions) != [] {
        ScoreNamesAllowed(world.library, found, artist.normalizedName, exclusions, song.title, MbidSearch, scorer);
      }
  }

  lemma {:induction false} MbidStepsAllowed(
      world: World, mbid: string, song: Song, artist: Artist, exclusions: Exclusions, scorer: Scorer, precheck: bool)
    ensures
      var result := MbidSteps(world, mbid, song, artist, exclusions, scorer, precheck);
      result.Answer? ==> AnyNamesAllowed(world.library, exclusions, result.value)
  {
    var name := artist.normalizedName;
    var tagged := FilesByArtistMbid(world.library, mbid);
    var search := RecordingSearch(world, mbid, song, artist, exclusions, scorer, precheck);
    SearchAllowed(world, mbid, song, artist, exclusions, scorer, precheck);
    if Eligible(tagged, name, exclusions) != [] {
      var local := ScoreCandidates(song.title, Eligible(tagged, name, exclusions), MbidExact, scorer);
      ScoreNamesAllowed(world.library, tagged, name, exclusions, song.title, MbidExact, scorer);
      EscalateAllowed(world.library, exclusions, local, search);
    }
  }

  lemma {:induction false} MappingRuleAllowed(
      library: seq<LibraryFile>, rules: seq<Option<LibraryFile>>, exclusions: Exclusions)
    requires forall r :: r in rules && r.Some? ==> r.value in library
    ensures
      var result := MappingRule(rules, exclusions);
      AnyNamesAllowed(library, exclusions, result)
  {
    if rules == [] {
    } else {
      assert rules[0] in rules;
      MappingRuleAllowed(library, rules[1..], exclusions);
    }
  }

  ghost predicate AttemptAllowed(
      library: seq<LibraryFile>, exclusions: Exclusions, attempt: Attempt<Option<MatchResult>>) {
    attempt.Answer? ==> AnyNamesAllowed(library, exclusions, attempt.value)
  }

  lemma {:induction false} WithNamesAllowed(
      library: seq<LibraryFile>, exclusions: Exclusions, found: Attempt<Option<MatchResult>>, name: Option<MatchResult>)
    requires AttemptAllowed(library, exclusions, found) && AnyNamesAllowed(library, exclusions, name)
    ensures AttemptAllowed(library, exclusions, AttemptWithNames(found, name))
  {
  }

  /** What the MBID steps give a resolved artist with a target. */
  lemma {:induction false} FoundAllowed(
      world: World, mbid: Option<string>, song: Song, artist: Artist, exclusions: Exclusions, scorer: Scorer,
      precheck: bool)
    ensures
      var found := if mbid.None? then Answer(None)
                   else MbidSteps(world, mbid.value, song, artist, exclusions, scorer, precheck);
      AttemptAllowed(world.library, exclusions, found)
  {
    if mbid.Some? {
      MbidStepsAllowed(world, mbid.value, song, artist, exclusions, scorer, precheck);
    }
  }

  lemma {:induction false} Tier1Allowed(
      world: World, song: Song, artist: Artist, exclusions: Exclusions, scorer: Scorer, precheck: bool)
    ensures AttemptAllowed(world.library, exclusions, ResolvedArtist(world, song, artist, exclusions, scorer, precheck))
  {
    if artist.id in world.targets && world.targets[artist.id] != "" {
      var mbid := ArtistMbid(world, world.targets[artist.id]);
      var found := if mbid.None? then Answer(None)
                   else MbidSteps(world, mbid.value, song, artist, exclusions, scorer, precheck);
      var name := NameResult(world, song, artist, exclusions, scorer);
      NameResultAllowed(world, song, artist, exclusions, scorer);
      FoundAllowed(world, mbid, song, artist, exclusions, scorer, precheck);
      WithNamesAllowed(world.library, exclusions, found, name);
    }
  }

  lemma {:induction false} ChainAllowed(
      world: World, rules: seq<Option<LibraryFile>>, song: Song, artist: Artist, exclusions: Exclusions,
      scorer: Scorer, precheck: bool)
    requires forall r :: r in rules && r.Some? ==> r.value in world.library
    ensures
      var result := Chain(world, rules, song, artist, exclusions, scorer, precheck);
      result.Answer? ==> AnyNamesAllowed(world.library, exclusions, result.value)
  {
    MappingRuleAllowed(world.library, rules, exclusions);
    Tier1Allowed(world, song, artist, exclusions, scorer, precheck);
    NameResultAllowed(world, song, artist, exclusions, scorer);
  }

  lemma {:induction false} TrialAllowed(
      library: seq<LibraryFile>, exclusions: Exclusions, today: MatchResult, trial: Attempt<Option<MatchResult>>)
    requires NamesAllowed(library, exclusions, today) && AttemptAllowed(library, exclusions, trial)
    ensures AttemptAllowed(library, exclusions, InTrial(today, trial))
  {
  }

  /** No result, in trial mode or not, names a file its song's exclusions rule out, and every
      match names a file. */
  lemma {:induction false} ResolveAllowed(
      world: World, rules: seq<Option<LibraryFile>>, song: Song, artist: Artist, exclusions: Exclusions,
      today: Scorer, trial: Option<Scorer>, precheck: bool)
    requires forall r :: r in rules && r.Some? ==> r.value in world.library
    ensures
      var result := Resolve(world, rules, song, artist, exclusions, today, trial, precheck);
      result.Answer? ==> AnyNamesAllowed(world.library, exclusions, result.value)
  {
    var first := Chain(world, rules, song, artist, exclusions, today, precheck);
    ChainAllowed(world, rules, song, artist, exclusions, today, precheck);
    if trial.Some? && first.Answer? && first.value.Some? {
      var second := Chain(world, rules, song, artist, exclusions, trial.value, precheck);
      ChainAllowed(world, rules, song, artist, exclusions, trial.value, precheck);
      TrialAllowed(world.library, exclusions, first.value.value, second);
    }
  }

  /** Every song gets a result: the chain runs out for none. */
  lemma {:induction false} ResolveDecides(
      world: World, rules: seq<Option<LibraryFile>>, song: Song, artist: Artist, exclusions: Exclusions,
      today: Scorer, trial: Option<Scorer>, precheck: bool)
    ensures
      var result := Resolve(world, rules, song, artist, exclusions, today, trial, precheck);
      result.Answer? ==> result.value.Some?
  {
  }

  /** Trial mode decides with both scorers: the song is hidden exactly when the trial scorer
      hides it, and auto-matches exactly when both do, and name one file. */
  lemma {:induction false} TrialNeedsBoth(today: MatchResult, trial: MatchResult)
    ensures TrialResult(today, trial).status == AutoRejected <==> trial.status == AutoRejected
    ensures TrialResult(today, trial).status == AutoMatched
       <==> today.status == AutoMatched && trial.status == AutoMatched && today.fileId == trial.fileId
  {
  }

  /** In trial mode every decided song is decided by two results, one a chain: it is hidden exactly when
      the trial chain hides it, and auto-matches exactly when both chains do, and name one file. */
  lemma {:induction false} TrialResolves(
      world: World, rules: seq<Option<LibraryFile>>, song: Song, artist: Artist, exclusions: Exclusions,
      today: Scorer, trial: Scorer, precheck: bool)
    returns (first: MatchResult, second: MatchResult)
    requires Resolve(world, rules, song, artist, exclusions, today, Some(trial), precheck).Answer?
    ensures Chain(world, rules, song, artist, exclusions, today, precheck) == Answer(Some(first))
    ensures Chain(world, rules, song, artist, exclusions, trial, precheck) == Answer(Some(second))
    ensures
      var result := Resolve(world, rules, song, artist, exclusions, today, Some(trial), precheck).value;
      && result.Some?
      && (result.value.status == AutoRejected <==> second.status == AutoRejected)
      && (result.value.status == AutoMatched
          <==> first.status == AutoMatched && second.status == AutoMatched && first.fileId == second.fileId)
  {
    ResolveDecides(world, rules, song, artist, exclusions, today, None, precheck);
    ResolveDecides(world, rules, song, artist, exclusions, trial, None, precheck);
    first := Chain(world, rules, song, artist, exclusions, today, precheck).value.value;
    second := Chain(world, rules, song, artist, exclusions, trial, precheck).value.value;
    TrialNeedsBoth(first, second);
  }
}
