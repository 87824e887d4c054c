/** The memo in front of the store (`_ArtistMemo`) and the strategies that read through it.

    Its values are always those of the store. That nothing is read twice is another matter: it holds
    one artist at a time, so it rests on the order of the songs. */
module ArtistMemos {
  import opened Wrappers
  import opened SongMatching
  import opened ArtistGrouping

  /** What the strategies read about an artist. */
  datatype ReadName = MatchRow | CatalogRow(target: string) | FilesTagged(mbid: string) | FilesNamed

  datatype ReadValue =
    | Target(target: Option<string>)
    | CatalogMbid(mbid: Option<Option<string>>)
    | Files(files: seq<LibraryFile>)

  /** The direct read. */
  function Fetch(world: World, artist: Artist, name: ReadName): ReadValue {
    match name
    case MatchRow => Target(if artist.id in world.targets then Some(world.targets[artist.id]) else None)
    case CatalogRow(target) => CatalogMbid(if target in world.catalog then Some(world.catalog[target]) else None)
    case FilesTagged(mbid) => Files(FilesByArtistMbid(world.library, mbid))
    case FilesNamed => Files(FilesByName(world.library, artist.normalizedName))
  }

  predicate Known(world: World, artist: Artist) {
    artist.id in world.artists && world.artists[artist.id] == artist
  }

  /** A read from the store: which artist's, and which. */
  datatype Fetched = Fetched(artistId: int, name: ReadName)

  ghost predicate OnceIn(fetched: multiset<Fetched>, artistId: Option<int>, held: set<ReadName>) {
    && (forall f :: f in fetched ==> fetched[f] == 1)
    && (forall f :: f in fetched && Some(f.artistId) == artistId ==> f.name in held)
  }

  ghost predicate FreshIn(fetched: multiset<Fetched>, artistId: Option<int>, id: int) {
    artistId == Some(id) || forall f :: f in fetched ==> f.artistId != id
  }

  /** The store behind a run's memos, with every read made of it. */
  class ReadStore {
    ghost var fetched: multiset<Fetched>

    constructor ()
      ensures fetched == multiset{}
    {
      fetched := multiset{};
    }

    method Read(world: World, artist: Artist, name: ReadName) returns (value: ReadValue)
      modifies this
      ensures value == Fetch(world, artist, name)
      ensures fetched == old(fetched) + multiset{Fetched(artist.id, name)}
    {
      fetched := fetched + multiset{Fetched(artist.id, name)};
      value := Fetch(world, artist, name);
    }
  }

  class ArtistMemo {
    const store: ReadStore
    var artistId: Option<int>
    var held: map<ReadName, ReadValue>

    constructor (store: ReadStore)
      ensures this.store == store && artistId == None && held == map[]
    {
      this.store := store;
      artistId, held := None, map[];
    }

    /** The memo holds the current artist's direct reads. */
    ghost predicate Holds(world: World)
      reads this
    {
      forall n :: n in held ==>
        artistId.Some? && artistId.value in world.artists && held[n] == Fetch(world, world.artists[artistId.value], n)
    }

    /** Nothing was fetched twice, and what was fetched for the current artist is at hand. */
    ghost predicate Once()
      reads this, store
    {
      OnceIn(store.fetched, artistId, held.Keys)
    }

    /** Fetching for `id` cannot repeat a read: it is the current artist, or a new one. */
    ghost predicate Fresh(id: int)
      reads this, store
    {
      FreshIn(store.fetched, artistId, id)
    }

    method Read(world: World, artist: Artist, name: ReadName) returns (value: ReadValue)
      requires Holds(world) && Known(world, artist)
      modifies this, store
      ensures value == Fetch(world, artist, name)
      ensures Holds(world) && artistId == Some(artist.id)
      ensures store.fetched == old(store.fetched)
              + if old(artistId) == Some(artist.id) && name in old(held) then multiset{}
                else multiset{Fetched(artist.id, name)}
      ensures old(Once() && Fresh(artist.id)) ==> Once()
    {
      if artistId != Some(artist.id) {
        artistId, held := Some(artist.id), map[];
      }
      if name !in held {
        var read := store.Read(world, artist, name);
        held := held[name := read];
      }
      value := held[name];
    }
  }

  /** What an operation for artist `id` leaves: direct values, nothing fetched but for that
      artist, and nothing fetched twice unless the memo had already left the artist. */
  twostate predicate ReadsOnlyFor(memo: ArtistMemo, id: int)
    reads memo, memo.store
  {
    && (memo.artistId == old(memo.artistId) || memo.artistId == Some(id))
    && (forall f :: f in memo.store.fetched ==> f in old(memo.store.fetched) || f.artistId == id)
    && (old(memo.Once() && memo.Fresh(id)) ==> memo.Once() && memo.Fresh(id))
  }

  /** An operation that a memo has no part in. */
  twostate predicate LeavesAlone(memo: ArtistMemo)
    reads memo
  {
    memo.artistId == old(memo.artistId) && memo.held == old(memo.held)
  }

  /** Tier 1 as it runs, reading through the memo; `precheck` is whether a recording search is
      first checked to be able to add a file. */
  class ResolvedArtistStrategy {
    const memo: ArtistMemo
    const scorer: Scorer
    const precheck: bool

    constructor (memo: ArtistMemo, scorer: Scorer, precheck: bool)
      ensures this.memo == memo && this.scorer == scorer && this.precheck == precheck
    {
      this.memo, this.scorer, this.precheck := memo, scorer, precheck;
    }

    /** The twin that scores titles another way shares this one's reads. */
    method ScoredBy(trial: Scorer) returns (twin: ResolvedArtistStrategy)
      ensures fresh(twin) && twin.memo == memo && twin.scorer == trial && twin.precheck == precheck
    {
      twin := new ResolvedArtistStrategy(memo, trial, precheck);
    }

    method Apply(world: World, song: Song, artist: Artist, exclusions: Exclusions)
      returns (result: Attempt<Option<MatchResult>>)
      requires memo.Holds(world) && Known(world, artist)
      modifies memo, memo.store
      ensures result == ResolvedArtist(world, song, artist, exclusions, scorer, precheck)
      ensures memo.Holds(world) && ReadsOnlyFor(memo, artist.id)
      ensures !artist.Resolved() ==> LeavesAlone(memo) && memo.store.fetched == old(memo.store.fetched)
    {
      if !artist.Resolved() {
        return Answer(None);
      }
      var matched, mbid := ReadMbid(world, artist);
      if !matched {
        return Answer(Some(NoMatch(NeedsReview, MbidSearch, MissingMatchRecord)));
      }
      var found: Option<MatchResult> := None;
      if mbid.Some? {
        var steps := Steps(world, mbid.value, song, artist, exclusions);
        if steps.Unavailable? {
          return Unavailable;
        }
        found := steps.value;
      }
      var name: Option<MatchResult> := None;
      if found.None? || found.value.status != AutoMatched {
        name := Named(world, song, artist, exclusions);
      }
      result := Answer(Some(WithNames(found, name)));
    }

    method Steps(world: World, mbid: string, song: Song, artist: Artist, exclusions: Exclusions)
      returns (steps: Attempt<Option<MatchResult>>)
      requires memo.Holds(world) && Known(world, artist)
      modifies memo, memo.store
      ensures steps == MbidSteps(world, mbid, song, artist, exclusions, scorer, precheck)
      ensures memo.Holds(world) && ReadsOnlyFor(memo, artist.id)
    {
      var tagged := memo.Read(world, artist, FilesTagged(mbid));
      steps := StepsOver(world, tagged.files, mbid, song, artist, exclusions, scorer, precheck);
    }

    method Named(world: World, song: Song, artist: Artist, exclusions: Exclusions)
      returns (name: Option<MatchResult>)
      requires memo.Holds(world) && Known(world, artist)
      modifies memo, memo.store
      ensures name == NameResult(world, song, artist, exclusions, scorer)
      ensures memo.Holds(world) && ReadsOnlyFor(memo, artist.id)
    {
      var named := memo.Read(world, artist, FilesNamed);
      name := ScoreNamed(named.files, song, artist, exclusions, scorer);
    }

    /** Whether the artist has a match row with a target, and the MBID it stands for. */
    method ReadMbid(world: World, artist: Artist) returns (matched: bool, mbid: Option<string>)
      requires memo.Holds(world) && Known(world, artist)
      modifies memo, memo.store
      ensures matched == (artist.id in world.targets && world.targets[artist.id] != "")
      ensures matched ==> mbid == ArtistMbid(world, world.targets[artist.id])
      ensures memo.Holds(world) && ReadsOnlyFor(memo, artist.id)
    {
      matched, mbid := false, None;
      var row := memo.Read(world, artist, MatchRow);
      if row.target.Some? && row.target.value != "" {
        var catalog := memo.Read(world, artist, CatalogRow(row.target.value));
        matched, mbid := true, if catalog.mbid.Some? then catalog.mbid.value else row.target;
        if mbid == Some("") {
          mbid := None;
        }
      }
    }
  }

  /** Tier 2 as it runs, with a memo of its own. */
  class UnresolvedArtistStrategy {
    const memo: ArtistMemo
    const scorer: Scorer

    constructor (memo: ArtistMemo, scorer: Scorer)
      ensures this.memo == memo && this.scorer == scorer
    {
      this.memo, this.scorer := memo, scorer;
    }

    method ScoredBy(trial: Scorer) returns (twin: UnresolvedArtistStrategy)
      ensures fresh(twin) && twin.memo == memo && twin.scorer == trial
    {
      twin := new UnresolvedArtistStrategy(memo, trial);
    }

    method Apply(world: World, song: Song, artist: Artist, exclusions: Exclusions)
      returns (result: Option<MatchResult>)
      requires memo.Holds(world) && Known(world, artist)
      modifies memo, memo.store
      ensures result == UnresolvedArtist(world, song, artist, exclusions, scorer)
      ensures memo.Holds(world) && ReadsOnlyFor(memo, artist.id)
      ensures artist.Resolved() ==> LeavesAlone(memo) && memo.store.fetched == old(memo.store.fetched)
    {
      if artist.Resolved() {
        return None;
      }
      var named := memo.Read(world, artist, FilesNamed);
      var name := ScoreNamed(named.files, song, artist, exclusions, scorer);
      result := Some(if name.Some? then name.value else NoMatch(AutoRejected, LocalFuzzy, NoCandidates));
    }
  }

  // ---- A whole stage ----

  /** A song with the files its mapping rules name and its exclusions. */
  datatype Task = Task(song: Song, rules: seq<Option<LibraryFile>>, exclusions: Exclusions)

  /** One tier reads for the artist, and the other tier's memo is left alone. */
  twostate predicate OneTierReads(tier1: ArtistMemo, tier2: ArtistMemo, artist: Artist)
    reads tier1, tier2, tier1.store, tier2.store
  {
    if artist.Resolved() then ReadsOnlyFor(tier1, artist.id) && LeavesAlone(tier2)
    else ReadsOnlyFor(tier2, artist.id) && LeavesAlone(tier1)
  }

  /** One chain of strategies. */
  method ApplyChain(
      world: World, task: Task, artist: Artist, tier1: ResolvedArtistStrategy, tier2: UnresolvedArtistStrategy)
    returns (result: Attempt<Option<MatchResult>>)
    requires tier1.memo != tier2.memo && tier1.memo.store == tier2.memo.store && tier1.scorer == tier2.scorer
    requires tier1.memo.Holds(world) && tier2.memo.Holds(world) && Known(world, artist)
    modifies tier1.memo, tier2.memo, tier1.memo.store
    ensures result == Chain(world, task.rules, task.song, artist, task.exclusions, tier1.scorer, tier1.precheck)
    ensures tier1.memo.Holds(world) && tier2.memo.Holds(world)
    ensures OneTierReads(tier1.memo, tier2.memo, artist)
  {
    var rule := MappingRule(task.rules, task.exclusions);
    if rule.Some? {
      return Answer(rule);
    }
    result := tier1.Apply(world, task.song, artist, task.exclusions);
    if result == Answer(None) {
      var fallback := tier2.Apply(world, task.song, artist, task.exclusions);
      result := Answer(fallback);
    }
  }

  function SongsIn(tasks: seq<Task>): (songs: seq<Song>)
    ensures |songs| == |tasks| && forall i :: 0 <= i < |tasks| ==> songs[i] == tasks[i].song
  {
    seq(|tasks|, i requires 0 <= i < |tasks| => tasks[i].song)
  }

  /** What reading everything directly gives for a song; nothing when its artist has no row. */
  function Direct(world: World, task: Task, today: Scorer, trial: Option<Scorer>, precheck: bool)
    : Option<Attempt<Option<MatchResult>>>
  {
    if task.song.artistId !in world.artists then None
    else Some(Resolve(world, task.rules, task.song, world.artists[task.song.artistId], task.exclusions,
                      today, trial, precheck))
  }

  /** Tier 1's artists are resolved, Tier 2's are not. */
  ghost predicate ServedBy(world: World, id: int, resolved: bool) {
    id in world.artists && world.artists[id].Resolved() == resolved
  }

  /** Before song `i`, fetches were only for artists of earlier songs, and a tier's memo is of an artist
      the tier serves and can still fetch for the latest one without repeating a read. */
  ghost predicate UpToIn(
      fetched: multiset<Fetched>, artistId: Option<int>, held: set<ReadName>, world: World, resolved: bool,
      songs: seq<Song>, i: nat)
    requires i <= |songs|
  {
    && OnceIn(fetched, artistId, held)
    && (artistId.Some? ==> ServedBy(world, artistId.value, resolved))
    && (forall f :: f in fetched ==> f.artistId in ArtistsOf(songs[..i]))
    && (i > 0 && ServedBy(world, songs[i - 1].artistId, resolved) ==> FreshIn(fetched, artistId, songs[i - 1].artistId))
  }

  ghost predicate UpTo(memo: ArtistMemo, world: World, resolved: bool, songs: seq<Song>, i: nat)
    requires i <= |songs|
    reads memo, memo.store
  {
    UpToIn(memo.store.fetched, memo.artistId, memo.held.Keys, world, resolved, songs, i)
  }

  /** Once a stage moves on from an artist, it never comes back to it. */
  ghost predicate NeverReturns(songs: seq<Song>) {
    forall i :: 0 < i < |songs| && songs[i].artistId in ArtistsOf(songs[..i])
      ==> songs[i].artistId == songs[i - 1].artistId
  }

  lemma {:induction false} ContiguousNeverReturns(songs: seq<Song>)
    requires Contiguous(songs)
    ensures NeverReturns(songs)
  {
    forall i | 0 < i < |songs| && songs[i].artistId in ArtistsOf(songs[..i])
      ensures songs[i].artistId == songs[i - 1].artistId
    {
      HasFirst(songs[..i], songs[i].artistId);
      var j := FirstIndex(songs[..i], songs[i].artistId);
      assert songs[..i][j] == songs[j];
    }
  }

  /** So a stage over grouped songs never does. */
  lemma {:induction false} GroupedNeverReturns(songs: seq<Song>)
    ensures NeverReturns(Grouped(songs))
  {
    GroupedLaws(songs);
    ContiguousNeverReturns(Grouped(songs));
  }

  lemma {:induction false} FreshForNext(memo: ArtistMemo, world: World, resolved: bool, songs: seq<Song>, i: nat)
    requires i < |songs| && NeverReturns(songs) && UpTo(memo, world, resolved, songs, i)
    requires ServedBy(world, songs[i].artistId, resolved)
    ensures memo.Fresh(songs[i].artistId)
  {
  }

  lemma {:induction false} ArtistsOfNext(songs: seq<Song>, i: nat)
    requires i < |songs|
    ensures ArtistsOf(songs[..i + 1]) == ArtistsOf(songs[..i]) + {songs[i].artistId}
  {
    assert songs[..i + 1] == songs[..i] + [songs[i]];
  }

  /** What is fetched for a song is of its artist, who is among the songs up to it. */
  ghost predicate FetchedFor(before: multiset<Fetched>, after: multiset<Fetched>, id: int) {
    forall f :: f in after ==> f in before || f.artistId == id
  }

  /** The tier that read for a song's artist can still fetch for it. */
  lemma {:induction false} ServedNext(
      before: multiset<Fetched>, after: multiset<Fetched>, was: Option<int>, artistId: Option<int>,
      wasHeld: set<ReadName>, held: set<ReadName>, world: World, resolved: bool, songs: seq<Song>, i: nat)
    requires i < |songs| && ServedBy(world, songs[i].artistId, resolved)
    requires UpToIn(before, was, wasHeld, world, resolved, songs, i)
    requires OnceIn(after, artistId, held) && FreshIn(after, artistId, songs[i].artistId)
    requires artistId == was || artistId == Some(songs[i].artistId)
    requires FetchedFor(before, after, songs[i].artistId)
    ensures UpToIn(after, artistId, held, world, resolved, songs, i + 1)
  {
    ArtistsOfNext(songs, i);
  }

  /** The other tier's memo is of other artists. */
  lemma {:induction false} AloneNext(
      before: multiset<Fetched>, after: multiset<Fetched>, artistId: Option<int>, held: set<ReadName>, world: World,
      resolved: bool, songs: seq<Song>, i: nat)
    requires i < |songs| && ServedBy(world, songs[i].artistId, !resolved)
    requires UpToIn(before, artistId, held, world, resolved, songs, i)
    requires forall f :: f in after ==> after[f] == 1
    requires FetchedFor(before, after, songs[i].artistId)
    ensures UpToIn(after, artistId, held, world, resolved, songs, i + 1)
  {
    ArtistsOfNext(songs, i);
  }

  /** A song whose artist has no row reads nothing. */
  lemma {:induction false} SkippedNext(memo: ArtistMemo, world: World, resolved: bool, songs: seq<Song>, i: nat)
    requires i < |songs| && songs[i].artistId !in world.artists && UpTo(memo, world, resolved, songs, i)
    ensures UpTo(memo, world, resolved, songs, i + 1)
  {
    ArtistsOfNext(songs, i);
  }

  /** The strategy chains of one run: today's and, in trial mode, its twins. */
  class SongEngines {
    const store: ReadStore
    const today: Scorer
    const trial: Option<Scorer>
    const precheck: bool
    const tier1: ResolvedArtistStrategy
    const tier2: UnresolvedArtistStrategy
    const twin1: ResolvedArtistStrategy
    const twin2: UnresolvedArtistStrategy

    /** The twins share the chains' memos, and each tier has its own. */
    ghost predicate Wired() {
      && tier1.memo != tier2.memo && tier1.memo.store == tier2.memo.store == store
      && twin1.memo == tier1.memo && twin2.memo == tier2.memo
      && tier1.scorer == tier2.scorer == today
      && twin1.scorer == twin2.scorer == (if trial.Some? then trial.value else today)
      && tier1.precheck == twin1.precheck == precheck
    }

    constructor (store: ReadStore, today: Scorer, trial: Option<Scorer>, precheck: bool)
      ensures Wired() && this.store == store && this.today == today && this.trial == trial && this.precheck == precheck
      ensures fresh(tier1.memo) && fresh(tier2.memo)
      ensures tier1.memo.held == tier2.memo.held == map[] && tier1.memo.artistId == tier2.memo.artistId == None
    {
      this.store, this.today, this.trial, this.precheck := store, today, trial, precheck;
      var memo1 := new ArtistMemo(store);
      var memo2 := new ArtistMemo(store);
      var tier1 := new ResolvedArtistStrategy(memo1, today, precheck);
      var tier2 := new UnresolvedArtistStrategy(memo2, today);
      var twin1, twin2 := tier1, tier2;
      if trial.Some? {
        twin1 := tier1.ScoredBy(trial.value);
        twin2 := tier2.ScoredBy(trial.value);
      }
      this.tier1, this.tier2, this.twin1, this.twin2 := tier1, tier2, twin1, twin2;
    }

    /** A song's result from both chains, as `Resolve` has it. */
    method ResolveSong(world: World, task: Task, artist: Artist)
      returns (result: Attempt<Option<MatchResult>>)
      requires Wired() && Known(world, artist)
      requires tier1.memo.Holds(world) && tier2.memo.Holds(world)
      modifies tier1.memo, tier2.memo, store
      ensures result == Resolve(world, task.rules, task.song, artist, task.exclusions, today, trial, precheck)
      ensures tier1.memo.Holds(world) && tier2.memo.Holds(world)
      ensures OneTierReads(tier1.memo, tier2.memo, artist)
    {
      result := ApplyChain(world, task, artist, tier1, tier2);
      if result.Unavailable? || result.value.None? || trial.None? {
        return;
      }
      var second := ApplyChain(world, task, artist, twin1, twin2);
      result := InTrial(result.value.value, second);
    }

    /** Before song `i`, see `UpTo`. */
    ghost predicate Ready(world: World, songs: seq<Song>, i: nat)
      requires i <= |songs|
      reads tier1.memo, tier2.memo, tier1.memo.store, tier2.memo.store
    {
      UpTo(tier1.memo, world, true, songs, i) && UpTo(tier2.memo, world, false, songs, i)
    }

    ghost predicate Holds(world: World)
      reads tier1.memo, tier2.memo
    {
      tier1.memo.Holds(world) && tier2.memo.Holds(world)
    }

    /** One song of a stage. */
    method ResolveNext(world: World, tasks: seq<Task>, i: nat)
      returns (result: Option<Attempt<Option<MatchResult>>>)
      requires i < |tasks| && forall id :: id in world.artists ==> world.artists[id].id == id
      requires Wired() && Holds(world)
      modifies tier1.memo, tier2.memo, store
      ensures result == Direct(world, tasks[i], today, trial, precheck)
      ensures Holds(world)
      ensures NeverReturns(SongsIn(tasks)) && old(Ready(world, SongsIn(tasks), i)) ==>
        Ready(world, SongsIn(tasks), i + 1)
    {
      ghost var songs := SongsIn(tasks);
      ghost var ready := NeverReturns(songs) && Ready(world, songs, i);
      var id := tasks[i].song.artistId;
      result := None;
      if id in world.artists {
        ghost var resolved := world.artists[id].Resolved();
        ghost var reader, other := tier1.memo, tier2.memo;
        if !resolved {
          reader, other := tier2.memo, tier1.memo;
        }
        if ready {
          FreshForNext(reader, world, resolved, songs, i);
        }
        ghost var before, was, wasHeld := store.fetched, reader.artistId, reader.held.Keys;
        var song := ResolveSong(world, tasks[i], world.artists[id]);
        result := Some(song);
        if ready {
          ServedNext(before, store.fetched, was, reader.artistId, wasHeld, reader.held.Keys, world, resolved, songs, i);
          AloneNext(before, store.fetched, other.artistId, other.held.Keys, world, !resolved, songs, i);
        }
      } else if ready {
        SkippedNext(tier1.memo, world, true, songs, i);
        SkippedNext(tier2.memo, world, false, songs, i);
      }
    }
  }

  function DirectAll(world: World, tasks: seq<Task>, today: Scorer, trial: Option<Scorer>, precheck: bool)
    : (results: seq<Option<Attempt<Option<MatchResult>>>>)
    ensures |results| == |tasks|
  {
    if tasks == [] then []
    else
      var last := |tasks| - 1;
      DirectAll(world, tasks[..last], today, trial, precheck) + [Direct(world, tasks[last], today, trial, precheck)]
  }

  lemma {:induction false} DirectAllAt(
      world: World, tasks: seq<Task>, today: Scorer, trial: Option<Scorer>, precheck: bool, i: nat)
    requires i < |tasks|
    ensures DirectAll(world, tasks, today, trial, precheck)[i] == Direct(world, tasks[i], today, trial, precheck)
  {
    if i < |tasks| - 1 {
      DirectAllAt(world, tasks[..|tasks| - 1], today, trial, precheck, i);
    }
  }

  lemma {:induction false} DirectAllNext(
      world: World, tasks: seq<Task>, today: Scorer, trial: Option<Scorer>, precheck: bool, i: nat)
    requires i < |tasks|
    ensures DirectAll(world, tasks[..i + 1], today, trial, precheck)
         == DirectAll(world, tasks[..i], today, trial, precheck) + [Direct(world, tasks[i], today, trial, precheck)]
  {
    assert tasks[..i + 1][..i] == tasks[..i];
  }

  /** The stage's loop over the songs. */
  method ResolveAll(engines: SongEngines, world: World, tasks: seq<Task>)
    returns (results: seq<Option<Attempt<Option<MatchResult>>>>)
    requires forall id :: id in world.artists ==> world.artists[id].id == id
    requires engines.Wired() && engines.Holds(world) && engines.Ready(world, SongsIn(tasks), 0)
    modifies engines.tier1.memo, engines.tier2.memo, engines.store
    ensures results == DirectAll(world, tasks, engines.today, engines.trial, engines.precheck)
    ensures NeverReturns(SongsIn(tasks)) ==> engines.Ready(world, SongsIn(tasks), |tasks|)
  {
    ghost var songs := SongsIn(tasks);
    results := [];
    for i := 0 to |tasks|
      invariant engines.Holds(world)
      invariant results == DirectAll(world, tasks[..i], engines.today, engines.trial, engines.precheck)
      invariant NeverReturns(songs) ==> engines.Ready(world, songs, i)
    {
      var result := engines.ResolveNext(world, tasks, i);
      DirectAllNext(world, tasks, engines.today, engines.trial, engines.precheck, i);
      results := results + [result];
    }
    assert tasks[..|tasks|] == tasks;
  }

  /** A stage over all its songs, in trial mode too. Whatever the order, every result is the one
      direct reads give; when no artist is come back to, each read of each artist is made of the store
      at most once, by whichever tier and its trial twin. */
  method ResolveStage(
      store: ReadStore, world: World, tasks: seq<Task>, today: Scorer, trial: Option<Scorer>, precheck: bool)
    returns (results: seq<Option<Attempt<Option<MatchResult>>>>)
    requires store.fetched == multiset{}
    requires forall id :: id in world.artists ==> world.artists[id].id == id
    modifies store
    ensures results == DirectAll(world, tasks, today, trial, precheck)
    ensures NeverReturns(SongsIn(tasks)) ==> forall f :: store.fetched[f] <= 1
  {
    var engines := new SongEngines(store, today, trial, precheck);
    results := ResolveAll(engines, world, tasks);
  }
}
