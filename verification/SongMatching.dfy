/** The song-matching chain (backend/services/identity_matching_service.py): candidates, scoring
    and the tiers that turn one broadcast song into a result.

    Title scores are an uninterpreted function of the broadcast title and the file; MusicBrainz
    is an arbitrary answer per query. */
module SongMatching {
  import opened Wrappers

  // ---- Library, songs and results ----

  /** `workId` is empty when the work is unknown. */
  datatype LibraryFile = LibraryFile(
    id: int, artistName: Option<string>, workId: string, present: bool,
    recordingMbid: Option<string>, artistMbid: Option<string>, albumArtistMbid: Option<string>)

  datatype MatchStatus = Pending | AutoMatched | NeedsReview | ManualMatched | AutoRejected | ManualRejected

  datatype MatchTier = MbidExact | MbidSearch | LocalFuzzy | Unclassified

  datatype Reason =
    | LowConfidence | AmbiguousGap | NoCandidates | NoLocalFiles | MissingMatchRecord
    | OrphanedIdentity | MbUnavailable | TitleScoresDisagree

  datatype MatchResult = MatchResult(
    status: MatchStatus, tier: MatchTier, confidence: real, fileId: Option<int>, workId: string,
    reason: Option<Reason>)

  datatype Artist = Artist(id: int, normalizedName: string, status: MatchStatus)
  {
    predicate Resolved() {
      status == AutoMatched || status == ManualMatched
    }
  }

  datatype Song = Song(id: int, artistId: int, title: string, rejected: seq<int>)

  /** The files a curator rejected for one song, and their works. */
  datatype Exclusions = Exclusions(fileIds: set<int>, workIds: set<string>)
  {
    predicate Allows(file: LibraryFile) {
      file.id !in fileIds && (file.workId == "" || file.workId !in workIds)
    }
  }

  const NO_EXCLUSIONS := Exclusions({}, {})

  // ---- Candidates ----

  function Filter(s: seq<LibraryFile>, keep: LibraryFile -> bool): (kept: seq<LibraryFile>)
    ensures forall x :: x in kept <==> x in s && keep(x)
  {
    if s == [] then []
    else (if keep(s[0]) then [s[0]] else []) + Filter(s[1..], keep)
  }

  /** Every file is listed once. */
  ghost predicate DistinctIds(files: seq<LibraryFile>) {
    forall i, j :: 0 <= i < j < |files| ==> files[i].id != files[j].id
  }

  /** Candidates that may be proposed: by the artist, and neither the file nor its work rejected. */
  function Eligible(
      candidates: seq<LibraryFile>, artistName: string, exclusions: Exclusions): (eligible: seq<LibraryFile>)
    ensures forall f :: f in eligible <==>
      f in candidates && f.artistName == Some(artistName) && exclusions.Allows(f)
  {
    Filter(candidates, (f: LibraryFile) => f.artistName == Some(artistName) && exclusions.Allows(f))
  }

  predicate TaggedBy(file: LibraryFile, mbid: string) {
    file.artistMbid == Some(mbid) || file.albumArtistMbid == Some(mbid)
  }

  function FilesByArtistMbid(library: seq<LibraryFile>, mbid: string): seq<LibraryFile> {
    Filter(library, (f: LibraryFile) => TaggedBy(f, mbid))
  }

  function FilesByRecording(library: seq<LibraryFile>, recording: string): seq<LibraryFile> {
    Filter(library, (f: LibraryFile) => f.present && f.recordingMbid == Some(recording))
  }

  const SONG_NAME_LOOKUP_LIMIT := 1000

  /** Present files of exactly this artist name, at most the lookup limit. */
  function FilesByName(library: seq<LibraryFile>, artistName: string): seq<LibraryFile> {
    if artistName == "" then []
    else
      var files := Filter(library, (f: LibraryFile) => f.present && f.artistName == Some(artistName));
      if |files| <= SONG_NAME_LOOKUP_LIMIT then files else files[..SONG_NAME_LOOKUP_LIMIT]
  }

  /** A file of the artist that a recording search could add to the files tagged with its MBID. */
  predicate Beyond(file: LibraryFile, artistName: string, mbid: string) {
    && file.artistName == Some(artistName)
    && file.present
    && file.recordingMbid.Some?
    && !TaggedBy(file, mbid)
  }

  predicate HasFileBeyond(library: seq<LibraryFile>, artistName: string, mbid: string) {
    exists f :: f in library && Beyond(f, artistName, mbid)
  }

  // ---- Scoring ----

  /** How a file scores against a title: the score that ranks it, and the full-form score that
      breaks ties. */
  datatype Rank = Rank(best: real, exact: real)

  /** A title scorer with its strong-match score. */
  datatype Scorer = Scorer(rank: (string, LibraryFile) -> Rank, strong: int)

  const MB_AUTO_LINK_SCORE := 95.0
  const MB_SCORE_GAP := 10.0
  const SONG_MIN_PRESENTATION_SCORE := 56.0

  /** Best score first, then full-form score, then the lower file id. */
  predicate Outranks(title: string, a: LibraryFile, b: LibraryFile, scorer: Scorer) {
    var ra, rb := scorer.rank(title, a), scorer.rank(title, b);
    || ra.best > rb.best
    || (ra.best == rb.best && ra.exact > rb.exact)
    || (ra.best == rb.best && ra.exact == rb.exact && a.id <= b.id)
  }

  function InsertRanked(
      title: string, file: LibraryFile, ranked: seq<LibraryFile>, scorer: Scorer): (inserted: seq<LibraryFile>)
    ensures multiset(inserted) == multiset(ranked) + multiset{file}
  {
    if ranked == [] || Outranks(title, file, ranked[0], scorer) then
      assert ranked == [] ==> [file] + ranked == [file];
      [file] + ranked
    else
      assert ranked == [ranked[0]] + ranked[1..];
      [ranked[0]] + InsertRanked(title, file, ranked[1..], scorer)
  }

  lemma {:induction false} SameSize<T>(a: seq<T>, b: seq<T>)
    requires multiset(a) == multiset(b)
    ensures |a| == |b|
  {
    assert |multiset(a)| == |a| && |multiset(b)| == |b|;
  }

  /** The candidates, best first. */
  function RankCandidates(title: string, candidates: seq<LibraryFile>, scorer: Scorer): (ranked: seq<LibraryFile>)
    ensures multiset(ranked) == multiset(candidates)
    ensures |ranked| == |candidates|
  {
    if candidates == [] then []
    else
      assert candidates == [candidates[0]] + candidates[1..];
      var ranked := InsertRanked(title, candidates[0], RankCandidates(title, candidates[1..], scorer), scorer);
      SameSize(ranked, candidates);
      ranked
  }

  /** The best candidate as a result. A lone candidate auto-matches only on a near-literal score. */
  function ScoreCandidates(title: string, candidates: seq<LibraryFile>, tier: MatchTier, scorer: Scorer): MatchResult
    requires candidates != []
  {
    var ranked := RankCandidates(title, candidates, scorer);
    var top := scorer.rank(title, ranked[0]).best;
    var competitor := |ranked| > 1;
    var gap := if competitor then top - scorer.rank(title, ranked[1]).best else 100.0;
    var strong := top >= scorer.strong as real;
    var (status, reason) :=
      if top >= MB_AUTO_LINK_SCORE || (competitor && strong && gap >= MB_SCORE_GAP) then (AutoMatched, None)
      else if top < SONG_MIN_PRESENTATION_SCORE then (AutoRejected, Some(LowConfidence))
      else if competitor && strong then (NeedsReview, Some(AmbiguousGap))
      else (NeedsReview, Some(LowConfidence));
    MatchResult(status, tier, top, Some(ranked[0].id), ranked[0].workId, reason)
  }

  // ---- MusicBrainz ----

  /** What MusicBrainz answers to one recording search: ids may be missing, and it may not answer. */
  datatype Search = NoAnswer | Recordings(ids: seq<Option<string>>)

  /** A chain's outcome for one song; unavailable when a search it needed had no answer. */
  datatype Attempt<+T> = Unavailable | Answer(value: T)

  function AddUnseen(files: seq<LibraryFile>, more: seq<LibraryFile>): (all: seq<LibraryFile>)
    ensures forall f :: f in all ==> f in files || f in more
    decreases |more|
  {
    if more == [] then files
    else if exists f :: f in files && f.id == more[0].id then AddUnseen(files, more[1..])
    else AddUnseen(files + [more[0]], more[1..])
  }

  /** The files any of the recordings maps to, each once, in order of first appearance. */
  function RecordingFiles(library: seq<LibraryFile>, recordings: seq<Option<string>>): (files: seq<LibraryFile>)
    decreases |recordings|
    ensures forall f :: f in files ==>
      f in library && f.present && f.recordingMbid.Some? && f.recordingMbid in recordings
  {
    if recordings == [] then []
    else
      var last := recordings[|recordings| - 1];
      var files := RecordingFiles(library, recordings[..|recordings| - 1]);
      if last.None? then files
      else AddUnseen(files, FilesByRecording(library, last.value))
  }

  /** A file of some list has this id. */
  ghost predicate HasId(files: seq<LibraryFile>, id: int) {
    exists k :: 0 <= k < |files| && files[k].id == id
  }

  /** A file some of the recordings maps to. */
  predicate Recorded(file: LibraryFile, library: seq<LibraryFile>, recordings: seq<Option<string>>) {
    file in library && file.present && file.recordingMbid.Some? && file.recordingMbid in recordings
  }

  lemma {:induction false} HasIdLater(files: seq<LibraryFile>, more: seq<LibraryFile>, id: int)
    requires files <= more && HasId(files, id)
    ensures HasId(more, id)
  {
    var k :| 0 <= k < |files| && files[k].id == id;
    assert more[k].id == id;
  }

  lemma {:induction false} UnseenIsDistinct(files: seq<LibraryFile>, file: LibraryFile)
    requires DistinctIds(files) && !(exists f :: f in files && f.id == file.id)
    ensures DistinctIds(files + [file]) && HasId(files + [file], file.id)
  {
    forall i | 0 <= i < |files| ensures files[i].id != file.id {
      assert files[i] in files;
    }
    assert (files + [file])[|files|].id == file.id;
  }

  lemma {:induction false} AddUnseenKeeps(files: seq<LibraryFile>, more: seq<LibraryFile>)
    requires DistinctIds(files)
    ensures DistinctIds(AddUnseen(files, more)) && files <= AddUnseen(files, more)
    ensures forall f :: f in more ==> HasId(AddUnseen(files, more), f.id)
    decreases |more|
  {
    if more == [] {
    } else {
      var all := AddUnseen(files, more);
      if exists f :: f in files && f.id == more[0].id {
        var f :| f in files && f.id == more[0].id;
        var k :| 0 <= k < |files| && files[k] == f;
        AddUnseenKeeps(files, more[1..]);
        HasIdLater(files, all, more[0].id);
      } else {
        UnseenIsDistinct(files, more[0]);
        AddUnseenKeeps(files + [more[0]], more[1..]);
        HasIdLater(files + [more[0]], all, more[0].id);
      }
      assert more == [more[0]] + more[1..];
    }
  }

  lemma {:induction false} RecordedNext(file: LibraryFile, library: seq<LibraryFile>, recordings: seq<Option<string>>)
    requires recordings != [] && Recorded(file, library, recordings)
    ensures Recorded(file, library, recordings[..|recordings| - 1])
         || (recordings[|recordings| - 1] == file.recordingMbid
             && file in FilesByRecording(library, file.recordingMbid.value))
  {
    assert recordings == recordings[..|recordings| - 1] + [recordings[|recordings| - 1]];
  }

  /** The gathered files are every file of every recording, once each by id. */
  lemma {:induction false} RecordingFilesAre(library: seq<LibraryFile>, recordings: seq<Option<string>>)
    ensures DistinctIds(RecordingFiles(library, recordings))
    ensures forall f :: Recorded(f, library, recordings) ==> HasId(RecordingFiles(library, recordings), f.id)
    decreases |recordings|
  {
    if recordings == [] {
    } else {
      var front, last := recordings[..|recordings| - 1], recordings[|recordings| - 1];
      var before, all := RecordingFiles(library, front), RecordingFiles(library, recordings);
      RecordingFilesAre(library, front);
      if last.Some? {
        AddUnseenKeeps(before, FilesByRecording(library, last.value));
      }
      forall f | Recorded(f, library, recordings) ensures HasId(all, f.id) {
        RecordedNext(f, library, recordings);
        if f.recordingMbid in front {
          assert HasId(before, f.id);
          var k :| 0 <= k < |before| && before[k].id == f.id;
          assert all[k] == before[k];
        }
      }
    }
  }

  /** Step B's gathering loop: every file of every recording, deduplicated by file id. A file once
      gathered stays before those of later recordings. */
  method CollectRecordingFiles(library: seq<LibraryFile>, recordings: seq<Option<string>>)
    returns (files: seq<LibraryFile>)
    ensures files == RecordingFiles(library, recordings)
    ensures DistinctIds(files)
    ensures forall f :: f in files ==> Recorded(f, library, recordings)
    ensures forall f :: Recorded(f, library, recordings) ==> HasId(files, f.id)
  {
    RecordingFilesAre(library, recordings);
    files := [];
    var seen: set<int> := {};
    for r := 0 to |recordings|
      invariant files == RecordingFiles(library, recordings[..r])
      invariant forall id :: id in seen <==> exists f :: f in files && f.id == id
    {
      assert recordings[..r + 1][..r] == recordings[..r];
      if recordings[r].None? {
        continue;
      }
      var found := FilesByRecording(library, recordings[r].value);
      ghost var before := files;
      for i := 0 to |found|
        invariant AddUnseen(before, found) == AddUnseen(files, found[i..])
        invariant forall id :: id in seen <==> exists f :: f in files && f.id == id
      {
        var file := found[i];
        assert found[i..][1..] == found[i + 1..];
        if file.id in seen {
          continue;
        }
        seen := seen + {file.id};
        forall id ensures id in seen <==> exists f :: f in files + [file] && f.id == id {
          if exists f :: f in files && f.id == id {
            var f :| f in files && f.id == id;
            assert f in files + [file];
          }
          assert file in files + [file];
        }
        files := files + [file];
      }
    }
    assert recordings[..|recordings|] == recordings;
  }

  /** Everything the chain reads. `targets` holds each resolved artist's match target ("" when
      blank), `catalog` the MBID of each local catalog artist by its id. */
  datatype World = World(
    library: seq<LibraryFile>, artists: map<int, Artist>, targets: map<int, string>,
    catalog: map<string, Option<string>>, musicbrainz: (string, string) -> Search)

  // ---- Tier 1: the artist is resolved ----

  /** Step B: the best local file across all matching MusicBrainz recordings. With `precheck` it
      searches only when the artist has a file the search could add. */
  function RecordingSearch(
      world: World, mbid: string, song: Song, artist: Artist, exclusions: Exclusions, scorer: Scorer, precheck: bool)
    : Attempt<Option<MatchResult>>
  {
    if precheck && !HasFileBeyond(world.library, artist.normalizedName, mbid) then Answer(None)
    else
      match world.musicbrainz(mbid, song.title)
      case NoAnswer => Unavailable
      case Recordings(ids) =>
        var candidates := Eligible(RecordingFiles(world.library, ids), artist.normalizedName, exclusions);
        if candidates == [] then Answer(None)
        else Answer(Some(ScoreCandidates(song.title, candidates, MbidSearch, scorer)))
  }

  /** Step A's result displaced only by a search that scored strictly better. */
  function Escalate(local: MatchResult, search: Attempt<Option<MatchResult>>): Attempt<Option<MatchResult>> {
    if local.status == AutoMatched then Answer(Some(local))
    else
      match search
      case Unavailable => Unavailable
      case Answer(found) =>
        if found.Some? && found.value.confidence > local.confidence then Answer(found) else Answer(Some(local))
  }

  /** Step A over the tagged files once read, escalating to Step B. */
  function StepsOver(
      world: World, tagged: seq<LibraryFile>, mbid: string, song: Song, artist: Artist, exclusions: Exclusions,
      scorer: Scorer, precheck: bool)
    : Attempt<Option<MatchResult>>
  {
    var candidates := Eligible(tagged, artist.normalizedName, exclusions);
    var search := RecordingSearch(world, mbid, song, artist, exclusions, scorer, precheck);
    if candidates == [] then search
    else Escalate(ScoreCandidates(song.title, candidates, MbidExact, scorer), search)
  }

  /** Step A, the files tagged with the artist's MBID, escalating to Step B. */
  function MbidSteps(
      world: World, mbid: string, song: Song, artist: Artist, exclusions: Exclusions, scorer: Scorer, precheck: bool)
    : Attempt<Option<MatchResult>>
  {
    StepsOver(world, FilesByArtistMbid(world.library, mbid), mbid, song, artist, exclusions, scorer, precheck)
  }

  /** The higher score of the MBID and name results; a tie keeps the MBID result. */
  function BetterOf(mbid: Option<MatchResult>, name: Option<MatchResult>): Option<MatchResult> {
    if name.None? then mbid
    else if mbid.None? || name.value.confidence > mbid.value.confidence then name
    else mbid
  }

  function NoMatch(status: MatchStatus, tier: MatchTier, reason: Reason): MatchResult {
    MatchResult(status, tier, 0.0, None, "", Some(reason))
  }

  /** The score of the named files once read. */
  function ScoreNamed(
      files: seq<LibraryFile>, song: Song, artist: Artist, exclusions: Exclusions, scorer: Scorer): Option<MatchResult>
  {
    var candidates := Eligible(files, artist.normalizedName, exclusions);
    if candidates == [] then None else Some(ScoreCandidates(song.title, candidates, LocalFuzzy, scorer))
  }

  /** Step C: the artist's files by name, tagged or not. */
  function NameResult(
      world: World, song: Song, artist: Artist, exclusions: Exclusions, scorer: Scorer): Option<MatchResult>
  {
    ScoreNamed(FilesByName(world.library, artist.normalizedName), song, artist, exclusions, scorer)
  }

  /** The MBID a match target stands for: it is a local catalog id when the catalog has it. */
  function ArtistMbid(world: World, target: string): Option<string> {
    var mbid := if target in world.catalog then world.catalog[target] else Some(target);
    if mbid == Some("") then None else mbid
  }

  /** What the MBID steps found, unless the name result is better or neither found anything. */
  function WithNames(found: Option<MatchResult>, name: Option<MatchResult>): MatchResult {
    if found.Some? && found.value.status == AutoMatched then found.value
    else
      var best := BetterOf(found, name);
      if best.Some? then best.value else NoMatch(AutoRejected, MbidSearch, NoLocalFiles)
  }

  function AttemptWithNames(
      found: Attempt<Option<MatchResult>>, name: Option<MatchResult>): Attempt<Option<MatchResult>> {
    match found
    case Unavailable => Unavailable
    case Answer(result) => Answer(Some(WithNames(result, name)))
  }

  /** Tier 1. */
  function ResolvedArtist(
      world: World, song: Song, artist: Artist, exclusions: Exclusions, scorer: Scorer, precheck: bool)
    : Attempt<Option<MatchResult>>
  {
    if !artist.Resolved() then Answer(None)
    else if artist.id !in world.targets || world.targets[artist.id] == "" then
      Answer(Some(NoMatch(NeedsReview, MbidSearch, MissingMatchRecord)))
    else
      var mbid := ArtistMbid(world, world.targets[artist.id]);
      var found := if mbid.None? then Answer(None)
                   else MbidSteps(world, mbid.value, song, artist, exclusions, scorer, precheck);
      AttemptWithNames(found, NameResult(world, song, artist, exclusions, scorer))
  }

  // ---- Tiers 0 and 2, and trial mode ----

  /** Tier 0: the file of the first mapping rule that matches the song and is not excluded.
      `rules` holds, in order, the file each matching rule names. */
  function MappingRule(rules: seq<Option<LibraryFile>>, exclusions: Exclusions): Option<MatchResult> {
    if rules == [] then None
    else if rules[0].Some? && exclusions.Allows(rules[0].value) then
      Some(MatchResult(AutoMatched, MbidExact, 100.0, Some(rules[0].value.id), rules[0].value.workId, None))
    else MappingRule(rules[1..], exclusions)
  }

  /** Tier 2: the fuzzy fallback while the artist is not resolved. */
  function UnresolvedArtist(
      world: World, song: Song, artist: Artist, exclusions: Exclusions, scorer: Scorer): Option<MatchResult>
  {
    if artist.Resolved() then None
    else
      var name := NameResult(world, song, artist, exclusions, scorer);
      Some(if name.Some? then name.value else NoMatch(AutoRejected, LocalFuzzy, NoCandidates))
  }

  /** The strategies in order; the first result wins. */
  function Chain(
      world: World, rules: seq<Option<LibraryFile>>, song: Song, artist: Artist, exclusions: Exclusions,
      scorer: Scorer, precheck: bool)
    : Attempt<Option<MatchResult>>
  {
    var rule := MappingRule(rules, exclusions);
    if rule.Some? then Answer(rule)
    else
      match ResolvedArtist(world, song, artist, exclusions, scorer, precheck)
      case Unavailable => Unavailable
      case Answer(Some(result)) => Answer(Some(result))
      case Answer(None) => Answer(UnresolvedArtist(world, song, artist, exclusions, scorer))
  }

  /** A song's result in trial mode, from today's scorer and the trial scorer. */
  function TrialResult(today: MatchResult, trial: MatchResult): MatchResult {
    var agree := today.status == trial.status && today.fileId == trial.fileId;
    if today.status == trial.status == AutoRejected then today
    else if agree && today.status == AutoMatched then today
    else if agree then trial.(status := NeedsReview)
    else trial.(status := if trial.status == AutoRejected then AutoRejected else NeedsReview,
                reason := Some(TitleScoresDisagree))
  }

  /** Today's result with what the trial chain made of the song. */
  function InTrial(today: MatchResult, trial: Attempt<Option<MatchResult>>): Attempt<Option<MatchResult>> {
    match trial
    case Unavailable => Unavailable
    case Answer(None) => Answer(Some(today))
    case Answer(Some(other)) => Answer(Some(TrialResult(today, other)))
  }

  /** The song's result: today's chain alone or, in trial mode, both chains'. */
  function Resolve(
      world: World, rules: seq<Option<LibraryFile>>, song: Song, artist: Artist, exclusions: Exclusions,
      today: Scorer, trial: Option<Scorer>, precheck: bool)
    : Attempt<Option<MatchResult>>
  {
    var first := Chain(world, rules, song, artist, exclusions, today, precheck);
    if first.Unavailable? || first.value.None? || trial.None? then first
    else InTrial(first.value.value, Chain(world, rules, song, artist, exclusions, trial.value, precheck))
  }

  // ---- Rejections ----

  /** One song's exclusions, by the current works of the files rejected for it. */
  function ExclusionsOf(song: Song, library: seq<LibraryFile>): Exclusions {
    Exclusions(
      set id | id in song.rejected,
      set f | f in library && f.id in song.rejected && f.workId != "" :: f.workId)
  }
}
