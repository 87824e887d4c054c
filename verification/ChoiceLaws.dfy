/** How the matching chain chooses: between candidates, between the steps of a tier, between the tiers
    and between the chains of trial mode, and what a rejection rules out. */
module ChoiceLaws {
  import opened Wrappers
  import opened SongMatching
  import opened SongMatchingLaws

  // ---- Between candidates ----

  /** Of equally good titles the one whose full form scores higher is named, and of those the file with
      the lower id. */
  lemma {:induction false} TiesAreBroken(title: string, candidates: seq<LibraryFile>, tier: MatchTier, scorer: Scorer)
    requires candidates != []
    ensures
      var result := ScoreCandidates(title, candidates, tier, scorer);
      && result.tier == tier
      && exists f :: f in candidates && result.fileId == Some(f.id)
           && forall g :: g in candidates && scorer.rank(title, g).best >= scorer.rank(title, f).best ==>
                scorer.rank(title, f).exact > scorer.rank(title, g).exact
                || (scorer.rank(title, f).exact == scorer.rank(title, g).exact && f.id <= g.id)
  {
    var ranked := RankCandidates(title, candidates, scorer);
    RankedHead(title, candidates, scorer);
    RankCandidatesRanked(title, candidates, scorer);
    forall g | g in candidates ensures g == ranked[0] || Outranks(title, ranked[0], g, scorer) {
      assert g in multiset(ranked);
      var i :| 0 <= i < |ranked| && ranked[i] == g;
    }
  }

  /** A song matches at once with a score of 95, or with a strong one that leads every competitor by 10;
      otherwise it is hidden under 56. */
  lemma {:induction false} WhenItMatches(title: string, candidates: seq<LibraryFile>, tier: MatchTier, scorer: Scorer)
    requires candidates != [] && DistinctIds(candidates)
    ensures
      var result := ScoreCandidates(title, candidates, tier, scorer);
      && (result.status == AutoMatched <==>
           || result.confidence >= 95.0
           || (&& |candidates| > 1 && result.confidence >= scorer.strong as real
               && forall f :: f in candidates && Some(f.id) != result.fileId ==>
                    scorer.rank(title, f).best + 10.0 <= result.confidence))
      && (result.status == AutoRejected <==> result.status != AutoMatched && result.confidence < 56.0)
  {
    ScorePolicy(title, candidates, tier, scorer);
  }

  /** Why a song that did not match is in review or hidden: a strong score is ambiguous when it has a
      competitor, and any other is low. */
  lemma {:induction false} ReviewReason(title: string, candidates: seq<LibraryFile>, tier: MatchTier, scorer: Scorer)
    requires candidates != []
    ensures
      var result := ScoreCandidates(title, candidates, tier, scorer);
      && (result.reason == None <==> result.status == AutoMatched)
      && (result.reason == Some(AmbiguousGap)
          <==> result.status == NeedsReview && |candidates| > 1 && result.confidence >= scorer.strong as real)
      && (result.reason in {None, Some(AmbiguousGap), Some(LowConfidence)})
      && (result.status in {AutoMatched, NeedsReview, AutoRejected})
  {
  }

  // ---- Between the steps of Tier 1 ----

  /** Step A's result stands unless the search scored strictly higher, and stands at once when it
      auto-matched. */
  lemma {:induction false} StepAStands(local: MatchResult, search: Option<MatchResult>)
    ensures
      var kept := Escalate(local, Answer(search));
      && kept.Answer? && kept.value in {Some(local), search} && kept.value.Some?
      && (local.status == AutoMatched ==> kept == Answer(Some(local)))
      && (search.Some? && local.status != AutoMatched ==>
            kept.value.value.confidence >= local.confidence && kept.value.value.confidence >= search.value.confidence)
      && (search.Some? && search.value.confidence == local.confidence ==> kept == Answer(Some(local)))
    ensures Escalate(local, Unavailable)
         == if local.status == AutoMatched then Answer(Some(local)) else Unavailable
  {
  }

  /** No candidate for a song: none tagged with the artist's MBID or found by the search, and none by
      name. */
  ghost predicate NoneFound(found: Option<MatchResult>, name: Option<MatchResult>) {
    found.None? && name.None?
  }

  /** Of an MBID result that did not auto-match and a name result, the better is kept, the MBID result
      when they tie, and there is no file exactly when there is neither. */
  lemma {:induction false} BetterIsKept(found: Option<MatchResult>, name: Option<MatchResult>)
    requires found.Some? ==> found.value.fileId.Some? && found.value.status != AutoMatched
    requires name.Some? ==> name.value.fileId.Some?
    ensures
      var kept := WithNames(found, name);
      && (found.Some? ==> kept.confidence >= found.value.confidence)
      && (name.Some? ==> kept.confidence >= name.value.confidence)
      && (found.Some? && name.Some? && found.value.confidence == name.value.confidence ==> kept == found.value)
      && (Some(kept) in {found, name} || NoneFound(found, name))
      && (kept.reason == Some(NoLocalFiles) && kept.fileId.None? <==> NoneFound(found, name))
      && (NoneFound(found, name) ==>
            kept == MatchResult(AutoRejected, MbidSearch, 0.0, None, "", Some(NoLocalFiles)))
  {
  }

  lemma {:induction false} SearchNames(
      world: World, mbid: string, song: Song, artist: Artist, exclusions: Exclusions, scorer: Scorer, precheck: bool)
    ensures
      var search := RecordingSearch(world, mbid, song, artist, exclusions, scorer, precheck);
      search.Answer? && search.value.Some? ==>
        search.value.value.fileId.Some? && search.value.value.reason != Some(NoLocalFiles)
  {
    if world.musicbrainz(mbid, song.title).Recordings? {
      var files := RecordingFiles(world.library, world.musicbrainz(mbid, song.title).ids);
      var found := Eligible(files, artist.normalizedName, exclusions);
      if found != [] {
        ReviewReason(song.title, found, MbidSearch, scorer);
      }
    }
  }

  /** What the MBID steps find names a file and scores at least as high as every eligible file tagged
      with the MBID. */
  lemma {:induction false} FoundIsBestTagged(
      world: World, mbid: string, song: Song, artist: Artist, exclusions: Exclusions, scorer: Scorer, precheck: bool)
    ensures
      var found := MbidSteps(world, mbid, song, artist, exclusions, scorer, precheck);
      var tagged := Eligible(FilesByArtistMbid(world.library, mbid), artist.normalizedName, exclusions);
      && (found.Answer? && found.value.Some? ==>
            && found.value.value.fileId.Some? && found.value.value.reason != Some(NoLocalFiles)
            && (forall f :: f in tagged ==> scorer.rank(song.title, f).best <= found.value.value.confidence))
      && (found == Answer(None) ==> tagged == [])
  {
    var tagged := Eligible(FilesByArtistMbid(world.library, mbid), artist.normalizedName, exclusions);
    var search := RecordingSearch(world, mbid, song, artist, exclusions, scorer, precheck);
    if tagged != [] {
      var local := ScoreCandidates(song.title, tagged, MbidExact, scorer);
      ScoreNamesBest(song.title, tagged, MbidExact, scorer);
      ReviewReason(song.title, tagged, MbidExact, scorer);
      SearchNames(world, mbid, song, artist, exclusions, scorer, precheck);
      if search.Answer? {
        StepAStands(local, search.value);
      }
    } else {
      SearchNames(world, mbid, song, artist, exclusions, scorer, precheck);
    }
  }

  /** The name result names a file and scores as high as every eligible file by name. */
  lemma {:induction false} NameIsBestNamed(
      world: World, song: Song, artist: Artist, exclusions: Exclusions, scorer: Scorer)
    ensures
      var name := NameResult(world, song, artist, exclusions, scorer);
      var named := Eligible(FilesByName(world.library, artist.normalizedName), artist.normalizedName, exclusions);
      && (name.Some? <==> named != [])
      && (name.Some? ==>
            && name.value.fileId.Some? && name.value.reason != Some(NoLocalFiles)
            && (forall f :: f in named ==> scorer.rank(song.title, f).best <= name.value.confidence))
  {
    var named := Eligible(FilesByName(world.library, artist.normalizedName), artist.normalizedName, exclusions);
    if named != [] {
      ScoreNamesBest(song.title, named, LocalFuzzy, scorer);
      ReviewReason(song.title, named, LocalFuzzy, scorer);
    }
  }

  /** A resolved artist's song takes an auto-match of the MBID steps as it is. Without one its result is
      the better of theirs and the name result, so no eligible file tagged with the MBID or found by name
      scores higher; they tie for the MBID; and it has no file exactly when there is no candidate. */
  lemma {:induction false} Tier1ChoosesBest(
      world: World, mbid: string, song: Song, artist: Artist, exclusions: Exclusions, scorer: Scorer, precheck: bool,
      found: Option<MatchResult>, result: MatchResult)
    requires HasMbid(world, artist, mbid)
    requires MbidSteps(world, mbid, song, artist, exclusions, scorer, precheck) == Answer(found)
    requires ResolvedArtist(world, song, artist, exclusions, scorer, precheck) == Answer(Some(result))
    ensures found.Some? && found.value.status == AutoMatched ==> result == found.value
    ensures !(found.Some? && found.value.status == AutoMatched) ==>
      var name := NameResult(world, song, artist, exclusions, scorer);
      var tagged := Eligible(FilesByArtistMbid(world.library, mbid), artist.normalizedName, exclusions);
      var named := Eligible(FilesByName(world.library, artist.normalizedName), artist.normalizedName, exclusions);
      && (forall f :: f in tagged || f in named ==> scorer.rank(song.title, f).best <= result.confidence)
      && (found.Some? ==> result.confidence >= found.value.confidence)
      && (found.Some? && name.Some? && found.value.confidence == name.value.confidence ==> result == found.value)
      && (Some(result) in {found, name} || result.reason == Some(NoLocalFiles))
      && (result.reason == Some(NoLocalFiles) <==> found.None? && named == [])
  {
    var name := NameResult(world, song, artist, exclusions, scorer);
    FoundIsBestTagged(world, mbid, song, artist, exclusions, scorer, precheck);
    NameIsBestNamed(world, song, artist, exclusions, scorer);
    if !(found.Some? && found.value.status == AutoMatched) {
      BetterIsKept(found, name);
    }
  }

  /** When the search is made and MusicBrainz does not answer, a resolved artist's song is deferred whole
      unless Step A auto-matched it: no other result stands in. */
  lemma {:induction false} OutageDefers(
      world: World, mbid: string, song: Song, artist: Artist, exclusions: Exclusions, scorer: Scorer, precheck: bool)
    requires HasMbid(world, artist, mbid) && world.musicbrainz(mbid, song.title) == NoAnswer
    requires precheck ==> HasFileBeyond(world.library, artist.normalizedName, mbid)
    ensures
      var tagged := Eligible(FilesByArtistMbid(world.library, mbid), artist.normalizedName, exclusions);
      var local := if tagged == [] then None else Some(ScoreCandidates(song.title, tagged, MbidExact, scorer));
      ResolvedArtist(world, song, artist, exclusions, scorer, precheck)
      == if local.Some? && local.value.status == AutoMatched then Answer(local) else Unavailable
  {
  }

  // ---- Between the tiers ----

  lemma {:induction false} FirstRule(rules: seq<Option<LibraryFile>>, exclusions: Exclusions)
    ensures MappingRule(rules, exclusions).None?
      <==> forall k :: 0 <= k < |rules| && rules[k].Some? ==> !exclusions.Allows(rules[k].value)
    ensures MappingRule(rules, exclusions).Some? ==>
      exists k :: 0 <= k < |rules| && rules[k].Some? && exclusions.Allows(rules[k].value)
        && (forall j :: 0 <= j < k && rules[j].Some? ==> !exclusions.Allows(rules[j].value))
        && var result := MappingRule(rules, exclusions).value;
           result == MatchResult(AutoMatched, MbidExact, 100.0, Some(rules[k].value.id), rules[k].value.workId, None)
  {
    if rules == [] {
    } else if rules[0].Some? && exclusions.Allows(rules[0].value) {
    } else {
      FirstRule(rules[1..], exclusions);
      if MappingRule(rules[1..], exclusions).Some? {
        var k :| 0 <= k < |rules[1..]| && rules[1..][k].Some? && exclusions.Allows(rules[1..][k].value)
          && (forall j :: 0 <= j < k && rules[1..][j].Some? ==> !exclusions.Allows(rules[1..][j].value))
          && MappingRule(rules[1..], exclusions).value
             == MatchResult(AutoMatched, MbidExact, 100.0, Some(rules[1..][k].value.id),
                            rules[1..][k].value.workId, None);
        assert rules[k + 1] == rules[1..][k];
        forall j | 0 <= j < k + 1 && rules[j].Some? ensures !exclusions.Allows(rules[j].value) {
          if j > 0 {
            assert rules[1..][j - 1] == rules[j];
          }
        }
      }
    }
  }

  /** The first mapping rule whose file the song's rejections allow decides, and nothing else is asked;
      without one a resolved artist's songs are Tier 1's and any other's are Tier 2's. */
  lemma {:induction false} RuleThenTiers(
      world: World, rules: seq<Option<LibraryFile>>, song: Song, artist: Artist, exclusions: Exclusions,
      scorer: Scorer, precheck: bool)
    ensures
      var decided := Chain(world, rules, song, artist, exclusions, scorer, precheck);
      if exists k :: 0 <= k < |rules| && rules[k].Some? && exclusions.Allows(rules[k].value) then
        exists k :: 0 <= k < |rules| && rules[k].Some? && exclusions.Allows(rules[k].value)
          && (forall j :: 0 <= j < k && rules[j].Some? ==> !exclusions.Allows(rules[j].value))
          && decided == Answer(Some(MatchResult(AutoMatched, MbidExact, 100.0, Some(rules[k].value.id),
                                                rules[k].value.workId, None)))
      else if artist.status in {AutoMatched, ManualMatched} then
        decided == ResolvedArtist(world, song, artist, exclusions, scorer, precheck)
      else
        match NameResult(world, song, artist, exclusions, scorer)
        case Some(name) => decided == Answer(Some(name))
        case None =>
          decided == Answer(Some(MatchResult(AutoRejected, LocalFuzzy, 0.0, None, "", Some(NoCandidates))))
  {
    FirstRule(rules, exclusions);
  }

  /** A resolved artist whose match row is missing or blank sends its songs to review; a target stands
      for the MBID the local catalog has for it, for itself when the catalog does not know it, and for
      none when either is blank. */
  lemma {:induction false} TargetMeans(
      world: World, song: Song, artist: Artist, exclusions: Exclusions, scorer: Scorer, precheck: bool, mbid: string)
    requires artist.status in {AutoMatched, ManualMatched}
    ensures artist.id !in world.targets || world.targets[artist.id] == "" ==>
      ResolvedArtist(world, song, artist, exclusions, scorer, precheck)
      == Answer(Some(MatchResult(NeedsReview, MbidSearch, 0.0, None, "", Some(MissingMatchRecord))))
    ensures artist.id in world.targets && world.targets[artist.id] != "" ==>
      var target := world.targets[artist.id];
      HasMbid(world, artist, mbid)
      <==> mbid != "" && (if target in world.catalog then world.catalog[target] == Some(mbid) else target == mbid)
    ensures artist.id in world.targets && world.targets[artist.id] != ""
            && (forall m :: !HasMbid(world, artist, m)) ==>
      ResolvedArtist(world, song, artist, exclusions, scorer, precheck)
      == Answer(Some(WithNames(None, NameResult(world, song, artist, exclusions, scorer))))
  {
    if artist.id in world.targets && ArtistMbid(world, world.targets[artist.id]).Some? {
      assert world.targets[artist.id] != "" ==>
        HasMbid(world, artist, ArtistMbid(world, world.targets[artist.id]).value);
    }
  }

  // ---- Between the chains of trial mode ----

  /** A song both chains hide, or auto-match to one file, keeps today's result; any other shows the trial
      chain's file, score and tier, and says so when the two differ. */
  lemma {:induction false} TrialShows(today: MatchResult, trial: MatchResult)
    ensures
      var shown := TrialResult(today, trial);
      var agree := today.status == trial.status && today.fileId == trial.fileId;
      if today.status == trial.status && (trial.status == AutoRejected || (agree && trial.status == AutoMatched))
      then shown == today
      else
        && shown.tier == trial.tier && shown.confidence == trial.confidence
        && shown.fileId == trial.fileId && shown.workId == trial.workId
        && shown.reason == (if agree then trial.reason else Some(TitleScoresDisagree))
        && shown.status == (if trial.status == AutoRejected then AutoRejected else NeedsReview)
  {
  }

  // ---- What a rejection rules out, and which files are read ----

  /** A file is out for a song exactly when it was rejected for it, or shares its work with one that
      was. */
  lemma {:induction false} RejectionRulesOut(song: Song, library: seq<LibraryFile>, file: LibraryFile)
    requires file in library
    ensures !ExclusionsOf(song, library).Allows(file)
      <==> file.id in song.rejected
           || exists other :: other in library && other.id in song.rejected
                && other.workId != "" && other.workId == file.workId
  {
    var exclusions := ExclusionsOf(song, library);
    if file.workId in exclusions.workIds {
      var other :| other in library && other.id in song.rejected && other.workId != ""
        && other.workId == file.workId;
    }
  }

  /** The files each step reads: tagged with an MBID as artist or album artist, mapped to by a recording,
      or of exactly the artist's name; the last two only when present, and the last at most a thousand. */
  lemma {:induction false} FilesRead(library: seq<LibraryFile>, key: string, file: LibraryFile)
    ensures file in FilesByArtistMbid(library, key)
      <==> file in library && (file.artistMbid == Some(key) || file.albumArtistMbid == Some(key))
    ensures file in FilesByRecording(library, key)
      <==> file in library && file.present && file.recordingMbid == Some(key)
    ensures file in FilesByName(library, key) ==>
      file in library && file.present && key != "" && file.artistName == Some(key)
    ensures file in library && file.present && key != "" && file.artistName == Some(key) ==>
      file in FilesByName(library, key) || |FilesByName(library, key)| == 1000
  {
  }
}
