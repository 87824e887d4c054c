# RetroStation: verified model

RetroStation is a web radio over an archive of station logs and a local music library. This project
models its algorithms and protocols in Dafny and proves what they promise over every
log, library, byte stream and interleaving. `dafny verify dfyconfig.toml` checks all of it.

| files | what they model |
|---|---|
| `Streaming`, `Schedule`, `TuneIn`, `WalkLaws`, `StepLaws`, `TuneInLaws`, `ScheduleLaws`, `TuneInMeaning` | the schedule walk: clock tune-in, resume, the next item, and the agreement of the three "what airs next" rules |
| `SongMatching`, `SongMatchingLaws`, `ChoiceLaws`, `ArtistGrouping`, `ArtistMemo`, `MatchingRun`, `PlaylistMatching` | the song-matching chain, the search it may skip, the per-artist memo, the guarded persistence loop, and a whole run |
| `Utf8`, `Relay`, `RelayLaws` | stream titles between audio bytes, and the player that undoes the framing |
| `Liners` | the liner shuffle over whole runs |
| `CueReader` | the batch analyser's line protocol under deadlines |
| `Audience` | the listener sweep against the definition of overlap |
| `AudioHash` | tag-blind fingerprints of MP3 and FLAC files |
| `ScriptFingerprint`, `ScriptCache` | the include traversal and the shared cache builds |
| `ProgressFeed` | the shared poller and its clients |
| `SyntheticWorkId` | the unpadded base64url id |
| `FolderTree`, `FolderHash`, `FolderHashLaws` | the folder walk and the diff from poll to poll |

Conventions. Days are integers, instants integer microseconds, offsets integer milliseconds; a log
is a finite map from day to plays, an absent day being empty. Loops and objects that change state
are methods and classes, each tied by its `ensures` to a function, and the laws are lemmas about that
function. Every lemma is marked `{:induction false}`, so each induction is written out. The two asyncio protocols, the persistence run, the relay loop and the reader are step
machines whose steps are what runs between two awaits, statements or lines.

Assumptions. Title scores are an arbitrary function of title and file; MusicBrainz answers each query
arbitrarily but the same way within a run (the store too: what users decide meanwhile is modelled in
`MatchingRun`); `get_by_artist_mbid` returns every file tagged with the MBID as artist or album
artist, present or not and without a limit, as its query does. A SHA-256 or the script digest is named by the
bytes it covers. A shuffle is an arbitrary permutation. Reading a queued line takes no time of its own.

Where the code does not do what one would expect, the exact condition is proved:

- The next-item rule looks one day ahead and the walk looks on, so stepping and jumping part at a
  whole day on which nothing airs, and only there (`JumpEqualsSteps`, `SilentDayEndsSteps`).
- The run's first play may be on an earlier day, and the look ahead is counted from it, so a next song
  the anchor reaches can be missed (`RunStartNext`, `RunHidesNextSong`).
- The backward rule looks two days back; across a longer silence it starts a run where the forward
  walk still skips a repeat (`BackwardRuleAgrees`, `SilentDayPartsRules`).
- An id decodes to what it was made from exactly when the artist id has no colon (`DecodeUndoesEncode`,
  `ColonIsLost`).
- A rejected script is built again while unchanged exactly when some start still holds another
  script's fingerprint (`NotRebuiltWhileUnchanged`, `StaleReaderHappens`).
- An MP3's hash covers exactly its audio if and only if untagged data does not look like a tag
  (`Mp3HashIsAudio`, `LookAlikeIsCut`).

## Model

| member | source | states |
|---|---|---|
| TuneInRules.WalkForward | backend/domain/tune_in.py:168-190 | the loop, day by day, lands where spending the offset over what airs lands, or fails on a stale start |
| TuneInRules.FindRunStart | backend/domain/tune_in.py:132-148 | the loop walks the run back to its first play, and ends on every finite log |
| TuneInRules.LastAtOrBefore | backend/domain/tune_in.py:65-71 | the last play of the day's head that is logged by the clock |
| WalkLaws.WalkAccounts | backend/domain/tune_in.py:168-190 | a walk lands somewhere if and only if the spans aired before it and its offset are the offset spent, or one cut tail overran it by less than that file's minimum span |
| WalkLaws.WalkEnds | backend/domain/tune_in.py:168-190 | the walk runs out if and only if nothing airs or less is left of it than its last song needs |
| WalkLaws.WalkMonotone | backend/domain/tune_in.py:168-190 | a larger offset never lands earlier, and past the end stays past the end |
| WalkLaws.SkippedAccounts | backend/domain/streaming.py:332-334 | offset plus what the cut skipped is the time before the landing; a cut skips something, less than the minimum span |
| WalkLaws.WalkComposes | backend/domain/tune_in.py:168-190 | walking b more from a landing is the direct walk of both plus what a cut tail skipped, whenever the direct walk lands |
| WalkLaws.WalkZero | backend/domain/tune_in.py:168-190 | walking zero stays put if and only if the place is playable and its tail fits |
| WalkLaws.WalkedSound | backend/domain/tune_in.py:168-190 | every landing of a walk is such a fixed point |
| ScheduleLaws.ItemsFromIs | backend/domain/tune_in.py:91-102 | a play is looked at if and only if it is logged, not before the start, within the look ahead, and no day on the way to it is without a play |
| ScheduleLaws.MissingDayEndsWalk | backend/domain/tune_in.py:91-102 | a log where a day without plays ends the walk, though a song is logged the day after |
| ScheduleLaws.AirsInWalk | backend/domain/tune_in.py:113-190 | a play of a walk airs if and only if playback can start at its top and the nearest such play before it is of another file |
| ScheduleLaws.SoundMeans | backend/domain/streaming.py:320-337 | playback can start at a place if and only if the file still holds something to play there, and its fade-out and the margin, up to its cue-out or its tagged end |
| StepLaws.JumpEqualsSteps | backend/domain/tune_in.py:168-190 | whenever every next-item step succeeds the walk lands where the steps land, and they succeed exactly when the walk lands and no whole day passes before anything airs |
| StepLaws.NextItemIsHead | backend/domain/tune_in.py:119-129 | the next-item rule gives the head of what the walk airs, unless that is more than a day ahead |
| StepLaws.SilentDayEndsSteps | backend/domain/tune_in.py:213-219 | a log where the walk goes on and the next-item rule ends the schedule |
| TuneInLaws.RunStartIsFirst | backend/domain/tune_in.py:132-148 | the run starts at a play with nothing of its run before it, of the anchor's file; an unplayable anchor is its own start |
| TuneInLaws.RunStartNext | backend/domain/tune_in.py:119-148 | the next song is unchanged by moving to the run's start if and only if it is within the look ahead from there |
| TuneInLaws.RunHidesNextSong | backend/domain/tune_in.py:151-165 | a log and a clock where, at the station's own timing, it is not, and tune-in misses a song the anchor reaches |
| TuneInLaws.AnchorOffset | backend/domain/tune_in.py:132-148 | the run's offset is the clock less the first play's logged time, short by less than one millisecond for each hop and one for the anchor |
| TuneInLaws.BackwardRuleAgrees | backend/domain/tune_in.py:105-148 | the walk airs a play exactly when the nearest playable one before it is of another file; the backward rule starts a run there exactly then or when that play is more than a day back |
| TuneInLaws.SilentDayPartsRules | backend/domain/tune_in.py:105-148 | a log where the backward rule starts a run at a play the walk skips as a repeat |
| TuneInLaws.WalkedPrevious | backend/domain/tune_in.py:105-110 | the previous playable play is the one the walk met, within the two days looked at, and none otherwise |
| TuneInLaws.TuneInSound | backend/domain/tune_in.py:193-210 | a clock tune-in lands on a fixed point of walking zero, logged within the window |
| TuneInLaws.ResumeSound | backend/domain/tune_in.py:222-243 | so does a resume, which with no time passed stays where the listener left |
| TuneInLaws.InsideRunIsWalk | backend/domain/tune_in.py:151-165 | inside the run's file, tune-in is the walk from the run's first play |
| TuneInLaws.OrderedTuneIn | backend/domain/tune_in.py:151-210 | on a log in time order tune-in lands or finds no broadcast; it never fails on a negative offset |
| TuneInLaws.TuneInOffset | backend/domain/tune_in.py:74-165 | inside the file on air the offset is the time since its first play, to within a millisecond for the clock and one a repeat; otherwise it lands at a song's top |
| TuneInMeaning.AnchorIsLastLogged | backend/domain/tune_in.py:74-88 | on a log in order the anchor is the last play of the clock's day and the day before that is logged by the clock, at the milliseconds since; without one the day's first play; and there is none exactly when the day has no play |
| TuneInMeaning.InRunOrNext | backend/domain/tune_in.py:151-165 | from an anchor tune-in lands inside the run's file exactly when playback can start there, and otherwise on the first play that airs after the run's start within the look ahead |
| TuneInMeaning.TuneInLands | backend/domain/tune_in.py:193-210 | tune-in lands exactly where the anchor leads, when that is logged no later than the window after the clock, and says how far the clocks are apart |
| TuneInMeaning.ResumeSpendsTime | backend/domain/tune_in.py:222-243 | a resume lands if and only if the time heard and missed, spent over what airs from the place left, comes to that landing; a stale offset and a clock gone backwards count nothing |
| TuneInMeaning.NextItemIs | backend/domain/tune_in.py:213-219 | the next item is the first play that airs after a place on its day or the next; without one the schedule has ended |
| SongMatching.CollectRecordingFiles | backend/services/identity_matching_service.py:636-645 | the gathering loop keeps only files some recording maps to, each id once, and every such file's id |
| SongMatchingLaws.ScoreNamesBest | backend/services/identity_matching_service.py:238-351 | the result names a candidate of the highest score |
| SongMatchingLaws.ScorePolicy | backend/services/identity_matching_service.py:300-335 | auto-matched if and only if near literal, or strong with a competitor and leading each by the gap; hidden if and only if otherwise under the floor |
| SongMatchingLaws.StepAFollowsPolicy | backend/services/identity_matching_service.py:575-591 | of a library that lists each file once, Step A's candidates do too, so its result follows that policy |
| SongMatchingLaws.StepBFollowsPolicy | backend/services/identity_matching_service.py:633-663 | so does every result of the recording search, whatever the library |
| SongMatchingLaws.StepCFollowsPolicy | backend/services/identity_matching_service.py:199-219 | so does the result by name |
| SongMatchingLaws.OrderNeverDecides | backend/services/identity_matching_service.py:285-300 | the order candidates are read in never decides the match |
| ChoiceLaws.TiesAreBroken | backend/services/identity_matching_service.py:285-300 | of equal scores the higher full-form score, and of those the lower file id, is named |
| ChoiceLaws.Tier1ChoosesBest | backend/services/identity_matching_service.py:222-563 | for a resolved artist without an MBID auto-match no eligible file tagged with the MBID or found by name scores higher than the result, ties go to the MBID, and there is no file exactly when there is no candidate |
| ChoiceLaws.OutageDefers | backend/services/identity_matching_service.py:492-663 | when the search is made and MusicBrainz does not answer, the song is deferred whole unless Step A auto-matched it |
| ChoiceLaws.TargetMeans | backend/services/identity_matching_service.py:466-563 | a missing or blank match row sends the song to review; a target is the MBID the catalog has for it, itself when the catalog does not know it, and none when blank |
| ChoiceLaws.RuleThenTiers | backend/services/identity_matching_service.py:373-769 | the first rule whose file is allowed decides with 100; otherwise resolved artists are Tier 1's and all others the name lookup's |
| ChoiceLaws.RejectionRulesOut | backend/services/identity_matching_service.py:156-196 | a file is out for a song if and only if it was rejected, or shares a known work with a file that was |
| SongMatchingLaws.SearchNeverWins | backend/services/identity_matching_service.py:599-608 | with no file to add, whatever the search finds scores no higher than Step A |
| SongMatchingLaws.PrecheckNeverChangesResult | backend/services/identity_matching_service.py:665-680 | for every MusicBrainz answer but an outage, the whole chain, trial mode included, decides the same with the pre-check as without |
| SongMatchingLaws.PrecheckSurvivesOutage | backend/services/identity_matching_service.py:624-630 | with the pre-check an outage never defers a song whose artist's MBID leaves no file to add, in trial mode either |
| SongMatchingLaws.SearchCanDecide | backend/services/identity_matching_service.py:665-680 | the pre-check is exact: where the artist has such a file, some answer and scores make the search decide, whether its MBID comes from the catalog or not |
| SongMatchingLaws.ResolveAllowed | backend/services/identity_matching_service.py:156-196 | no result names a file its song's exclusions rule out, and every match names a file |
| SongMatchingLaws.TrialResolves | backend/services/identity_matching_service.py:831-844 | a song decided in trial mode has a result of each chain; it is hidden exactly when the trial chain hides it, and auto-matches exactly when both do, and name one file |
| ArtistGrouping.GroupByArtist | backend/services/identity_matching_service.py:146-153 | numbering artists in one pass and sorting by number gives the grouped order |
| ArtistGrouping.GroupedLaws | backend/services/identity_matching_service.py:146-153 | a stable permutation, each artist contiguous, in order of first appearance |
| ArtistMemos.ArtistMemo.Read | backend/services/identity_matching_service.py:124-143 | a memoised read is the direct one, made of the store only when the current artist has not read it |
| ArtistMemos.GroupedNeverReturns | backend/services/identity_matching_service.py:146-153 | over grouped songs no artist is come back to |
| ArtistMemos.SongEngines.ResolveSong | backend/services/identity_matching_service.py:831-844 | both chains over shared memos give the result direct reads give |
| ArtistMemos.DirectAllAt | backend/services/identity_matching_service.py:948-975 | a stage's result for each song is that of direct reads for that song |
| ArtistMemos.ResolveStage | backend/services/identity_matching_service.py:847-948 | in any order every result is that of direct reads; when no artist is come back to, each (artist, read) is made of the store at most once over both tiers and their trial twins |
| MatchingRun.Run | backend/services/identity_matching_service.py:901-1053 | the run leaves every row as its turns and the decisions made meanwhile say, and tallies each song's fate |
| PlaylistMatching.MatchPlaylist | backend/services/identity_matching_service.py:901-1053 | a whole run over grouped songs with loaded rejections and the chain's own results: the counters sum to the pending songs; each ends with the user's last decision since its turn, or with its own result when still pending (at most one match row, none when hidden, of a file its rejections allow), or as already decided; others change only by the user; each (artist, read) is made of the store at most once |
| MatchingRun.CountersSum | backend/services/identity_matching_service.py:941-945 | five counters sum to the songs counted |
| MatchingRun.CountersCount | backend/services/identity_matching_service.py:1031-1040 | each counter is the number of songs with its fate |
| MatchingRun.FateIsRow | backend/services/identity_matching_service.py:1031-1040 | a song's fate is told by the row written, deferral apart from review |
| MatchingRun.MatchedWorksAre | backend/services/identity_matching_service.py:1031-1034 | the works returned are those of the songs that were auto-matched with one |
| MatchingRun.UserDecisionWins | backend/services/identity_matching_service.py:1003-1017 | a song ends with the user's last decision since its turn; else with exactly its own result when its turn found it pending; else as decided, rows untouched |
| MatchingRun.DecidedMeanwhileIsDecided | backend/services/identity_matching_service.py:1003-1014 | a song counts as decided meanwhile exactly when the user's last decision before its turn left it so |
| MatchingRun.OthersUntouched | backend/services/identity_matching_service.py:948-1017 | a song with no turn changes only by the user's decision |
| MatchingRun.WrittenNamesAllowed | backend/services/identity_matching_service.py:1019-1038 | the row a song's own result is written as has at most one suggestion, none when hidden, naming a library file its exclusions allow |
| MatchingRun.LoadExclusions | backend/services/identity_matching_service.py:173-196 | one batch lookup gives every song the exclusions a lookup of its own would |
| Utf8.DecodeEncode | backend/playout/relay.py:135-144 | UTF-8 (section 3 of RFC 3629) decodes what it encoded |
| Utf8.CutKeepsWholeCharacters | backend/playout/relay.py:135-144 | encoding, cutting at a byte limit and decoding leniently keeps exactly the longest prefix of whole characters that fits |
| Utf8.DecodeIsStrict | backend/domain/synthetic_work_id.py:20-23 | strict decoding takes the encodings of texts and nothing else |
| Utf8.StrayByteIgnored | backend/playout/relay.py:135-144 | lenient decoding leaves out a byte no character starts with and reads what is around it |
| Relay.IcyFramer.Frame | backend/playout/relay.py:159-176 | a chunk's output and the framer's next state, from where the last chunk left it |
| Relay.FramesAppend | backend/playout/relay.py:159-169 | framing in two chunks is framing in one |
| Relay.FittedIsShown | backend/playout/relay.py:135-144 | a block holds the title's longest whole-character prefix that fits |
| Relay.BlockOfHi | backend/playout/relay.py:135-144 | the block of a two-letter title, byte for byte |
| Relay.RelayLoop | backend/playout/relay.py:98-132 | what was delivered is the framing of all audio read before the turn that ended the relay, however chunked |
| RelayLaws.BlockReadBack | backend/playout/relay.py:135-144 | a player reads back the shown title, within a length of 255 units |
| RelayLaws.ShownIsLongest | backend/playout/relay.py:42-46 | one more character would not fit |
| RelayLaws.PlayUndoesFrames | backend/playout/relay.py:147-176 | reading metaint bytes, a length byte and 16 times as many recovers exactly the audio and the payloads |
| RelayLaws.DueEveryMetaint | backend/playout/relay.py:159-169 | one block falls due every metaint audio bytes |
| RelayLaws.ScreenFollowsTitles | backend/playout/relay.py:171-176 | an empty block keeps the screen, so it follows the session's titles block by block |
| RelayLaws.PlayerRecovers | backend/playout/relay.py:147-176 | all together: every audio byte in order, and at each block the title the session had there |
| Liners.NextLiner | backend/domain/liners.py:210-229 | the in-place list gives the pick and the rotation of the specification |
| Liners.PickLaws | backend/domain/liners.py:210-229 | in every reachable state it picks an available liner when there is one, and repeats the last exactly when that is the only one |
| Liners.NeverTwiceInARow | backend/domain/liners.py:210-229 | over any run with changing availability two turns in a row play the same liner exactly when it is alone |
| Liners.CycleIsPermutation | backend/domain/liners.py:210-229 | with n fixed ids a cycle plays each id once |
| Liners.PlayCountsEven | backend/domain/liners.py:210-229 | however far a run from a fresh cycle has come, two ids' plays differ by one at most |
| Liners.RecursWithin | backend/domain/liners.py:210-229 | from any reachable state every id plays within 2n - 1 picks |
| CueReader.ReaderAgrees | backend/playout/cue_analysis.py:261-302 | the reader's fields after any accepted lines are each file's own verdict, read off that file's begin and the line after it |
| CueReader.VerdictIsNextLine | backend/playout/cue_analysis.py:265-302 | a begun file is what the next protocol line makes of it: stalled with none, rejected by a begin or a bad result, else analysed |
| CueReader.BeginsInOrder | backend/playout/cue_analysis.py:261-282 | accepted begins are 0, 1, 2, ..., once each |
| CueReader.Reader.NextProtocolLine | backend/playout/cue_analysis.py:242-259 | the next protocol line by the deadline; log lines do not move it, every arrival taken came in time, and giving up means the next did not |
| CueReader.Reader.Handle | backend/playout/cue_analysis.py:230-240 | one line's effect, and the time the next may take |
| CueReader.Reader.Run | backend/playout/cue_analysis.py:221-240 | the fields follow the lines heard, all in time; reading stops only when all is settled, the output ends or a line is late; at most two protocol lines a file, and the wait is within the begun files' budget, however many log lines arrive |
| CueReader.StepSpends | backend/playout/cue_analysis.py:101-105 | every accepted line begins a file or settles one, and pays for the next deadline |
| CueReader.BudgetBound | backend/playout/cue_analysis.py:221-240 | that budget is at most startup, every file's deadline, and the per-file timeout for each file |
| CueReader.AnalyseBatch | backend/playout/cue_analysis.py:346-384 | the outcome is that of the lines heard, empty for no files, an error when the protocol broke or no file began; every arrival taken came in time, reading stopped only when all was settled, the output ended or the next line was late, and the whole wait is within startup, every deadline and a timeout a file |
| CueReader.BatchIsPartition | backend/playout/cue_analysis.py:373-384 | the outcome partitions the files into analysed, rejected, stalled and never begun, and only the last begun can be stalled |
| CueReader.BatchKeepsMetadata | backend/playout/cue_analysis.py:284-302 | a file awaiting its result is analysed if and only if the next line is a result whose JSON object has its index and a metadata object of strings, and is stored with exactly those keys and values |
| CueReader.BatchRejects | backend/playout/cue_analysis.py:181-300 | why any other next line rejects it |
| CueReader.NextLineAccepted | backend/playout/cue_analysis.py:265-302 | a begin is accepted exactly when it carries the next number of the batch, and a result exactly when a file awaits one |
| CueReader.DeadlineIsLonger | backend/playout/cue_analysis.py:101-105 | a file's deadline is the longer of the per-file timeout and a fortieth of its length, the timeout when that is unknown |
| Audience.LevelIsCovering | scripts/stream_audience.py:66-86 | an instant's level is the number of half-open sessions covering it |
| Audience.InstantIsPrefix | scripts/stream_audience.py:66-77 | every instant's level is the sweep's after some number of sorted edges |
| Audience.SweepNeverNegative | scripts/stream_audience.py:68-74 | with every session ending after it starts the sweep's level is never negative, even between edges at one instant |
| Audience.AudienceOf | scripts/stream_audience.py:66-86 | the peak is the largest level of any instant, and peak_at the first instant that has it; levels are listed as first met; each level's time is the number of instants that have it; times sum to the span of the edges, and level-weighted to all session lengths; typical is the first level held longest |
| Audience.EdgesSpanPeriod | scripts/stream_audience.py:80-82 | for sessions oldest first that span is the reported period |
| AudioHashes.ReadBlock | backend/services/audio_hash.py:74-85 | one header, the STREAMINFO body, and the seek past the block, or none when cut short |
| AudioHashes.ReadLayout | backend/services/audio_hash.py:67-86 | the block loop ends on every file with the layout its blocks give |
| AudioHashes.Sha256OfRange | backend/services/audio_hash.py:89-102 | chunked reading digests exactly the range, as far as it exists; none when it is empty |
| AudioHashes.Id3v2Size | backend/services/audio_hash.py:50-59 | the loop computes the size a tag header announces |
| AudioHashes.SyncsafeRoundTrip | backend/services/audio_hash.py:54-57 | a syncsafe size reads back (section 6.2 of the ID3v2.4.0 structure document) |
| AudioHashes.TagIsMeasured | backend/services/audio_hash.py:50-59 | a written tag, footer included, is measured exactly whatever follows |
| AudioHashes.ComputeAudioHash | backend/services/audio_hash.py:135-145 | the hashers over a seekable file compute the parsed layouts' hashes |
| AudioHashes.Mp3HashIsAudio | backend/services/audio_hash.py:115-126 | the hash covers exactly the audio if and only if what is untagged does not look like a tag; none without audio |
| AudioHashes.LookAlikeIsCut | backend/services/audio_hash.py:124-126 | untagged audio that starts like a tag whose first bytes are not covered |
| AudioHashes.Mp3TagsDoNotMatter | backend/services/audio_hash.py:124-126 | other tags around the same audio give the same hash |
| AudioHashes.BlocksAreRead | backend/services/audio_hash.py:72-86 | the loop reads back any metadata block list (section 8.1 of RFC 9639): the frames' offset and the last STREAMINFO's MD5 |
| AudioHashes.CutFlacHasNoHash | backend/services/audio_hash.py:67-112 | a FLAC that ends within its metadata has no hash, wherever it ends |
| AudioHashes.UnmarkedHasNoHash | backend/services/audio_hash.py:67-112 | nor has a file without the marker after its tag or at its start |
| AudioHashes.StreamInfoMd5 | backend/services/audio_hash.py:33-84 | the MD5 is the sixteen bytes after the first eighteen of STREAMINFO |
| AudioHashes.ZeroMd5 | backend/services/audio_hash.py:43-47 | only sixteen zero bytes stand for no MD5 |
| AudioHashes.FlacHashIsAudio | backend/services/audio_hash.py:105-112 | a FLAC's hash is its stored MD5, or covers exactly its frames |
| AudioHashes.FlacEditsDoNotMatter | backend/services/audio_hash.py:105-112 | edits to the tag and to the other blocks change nothing |
| ScriptFingerprints.ScriptFingerprint | backend/playout/script_cache.py:30-50 | the worklist visits depth first, each file once, ends on cycles, and stops at the first unreadable file |
| ScriptFingerprints.FingerprintIsReach | backend/playout/script_cache.py:30-50 | the files hashed are distinct and are the smallest set holding the script and what its files include |
| ScriptFingerprints.DepthFirst | backend/playout/script_cache.py:30-50 | the script is hashed first and each file is followed by the first of its includes not hashed yet |
| ScriptFingerprints.UnreadableIsReached | backend/playout/script_cache.py:30-50 | it fails if and only if the script reaches an unreadable file |
| ScriptFingerprints.FingerprintIdentifies | backend/playout/script_cache.py:30-50 | another folder has the same fingerprint if and only if every file reached has the same text there |
| ScriptCaches.ScriptCache.Continue | backend/playout/script_cache.py:96-101 | what a start does between its read and its next await is the step of the state machine |
| ScriptCaches.ScriptCache.Settle | backend/playout/script_cache.py:126-128 | a build's end, which makes the cache warm for it only when it succeeded |
| ScriptCaches.WakeDecides | backend/playout/script_cache.py:101-104 | a start that waited raises exactly when the build was of the script it read and failed, in whatever way, and otherwise reads again |
| ScriptCaches.AlwaysSafe | backend/playout/script_cache.py:91-132 | in every interleaving at most one build runs and the cache is warm for the last one that succeeded |
| ScriptCaches.ReturnsOnlyWarm | backend/playout/script_cache.py:96-100 | whoever returns had read the fingerprint that the latest success built |
| ScriptCaches.StartsEndForTheirOwn | backend/playout/script_cache.py:91-112 | in every interleaving a start ends warm for what it read, with its own read's or its own script's build's failure, or cancelled |
| ScriptCaches.RejectedNotBuiltAgainAtOnce | backend/playout/script_cache.py:114-124 | between a rejected build and the next of the same script another script is built |
| ScriptCaches.NotRebuiltWhileUnchanged | backend/playout/script_cache.py:114-124 | while every read finds the rejected script it is not built again, if and only if no start holds another fingerprint that is not warm |
| ScriptCaches.StaleReaderHappens | backend/playout/script_cache.py:96-101 | a run from the start reaches such a start |
| ProgressFeeds.ProgressFeed.EndPoll | backend/websocket.py:150-153 | the loop offers the item to exactly the clients it is due to, replacing an unsent one |
| ProgressFeeds.ProgressFeed.Loop | backend/websocket.py:143-149 | the top of the poller's loop as a step |
| ProgressFeeds.UnsubscribeKeepsOthers | backend/websocket.py:138-141 | a client that leaves takes nothing from the others |
| ProgressFeeds.AlwaysGood | backend/websocket.py:102-165 | in every interleaving an unserved client keeps the wake flag set, and each client is offered every poll from its first on, once each |
| ProgressFeeds.ClientSeesNewest | backend/websocket.py:134-154 | what a client takes was polled after it subscribed, in strictly increasing order, and its queue holds at most the newest item |
| ProgressFeeds.ServedWithoutTimeout | backend/websocket.py:143-165 | an unserved client is served by the poller's own next poll without any sleep running out |
| ProgressFeeds.NeverIdleWithClient | backend/websocket.py:143-147 | the poller's wait for a first client can end whenever one is there |
| SyntheticWorkId.DecodeEncode64 | backend/domain/synthetic_work_id.py:6-27 | base64url without its padding decodes to what was encoded, whatever is left over in the last group (sections 3.2 and 5 of RFC 4648) |
| SyntheticWorkId.DecodeUndoesEncode | backend/domain/synthetic_work_id.py:6-27 | decode undoes encode if and only if the artist id has no colon, for every title |
| SyntheticWorkId.ColonIsLost | backend/domain/synthetic_work_id.py:12-27 | an artist id with a colon that decodes to other parts |
| SyntheticWorkId.EncodeInjective | backend/domain/synthetic_work_id.py:6-9 | two songs share an id exactly when their joined texts are equal, never for different colon-free pairs |
| SyntheticWorkId.SymbolsAreUrlSafe | backend/domain/synthetic_work_id.py:6-9 | the symbols are the URL-safe alphabet in its order (section 5 of RFC 4648) |
| SyntheticWorkId.IdOfAB | backend/domain/synthetic_work_id.py:6-9 | the id of artist "a" and title "b" |
| SyntheticWorkId.BytesOfAnId | backend/domain/synthetic_work_id.py:12-27 | an id over some bytes is read if and only if they are the UTF-8 of a text with a colon, as its parts around the first |
| SyntheticWorkId.NotAnId | backend/domain/synthetic_work_id.py:12-27 | another prefix, a non-ASCII character or a lone last symbol reads as nothing |
| SyntheticWorkId.JunkIsIgnored | backend/domain/synthetic_work_id.py:20-23 | a character outside the alphabets is passed over wherever it stands |
| FolderTrees.WithinIsPrefix | backend/services/folder_hash_service.py:96-98 | on canonical strings the separator test is the prefix test on folder names |
| FolderTrees.WalkFinds | backend/services/folder_hash_service.py:68-93 | the walk finds exactly the folders that can be seen, with their hashes |
| FolderTrees.WalkHides | backend/services/folder_hash_service.py:68-93 | a path is under a recorded unlistable folder exactly when one on the way to it cannot be listed |
| FolderTrees.WalkIsBottomUp | backend/services/folder_hash_service.py:84-93 | each folder once, before its parent |
| FolderHashes.FolderRepository.SyncNewFolders | backend/services/folder_hash_service.py:121-142 | the reversed loop leaves the specified rows |
| FolderHashes.FolderRepository.ComputeDiff | backend/services/folder_hash_service.py:145-163 | the loop gives the specified changed folders and pending hashes |
| FolderHashes.FolderRepository.DiffTree | backend/services/folder_hash_service.py:166-214 | one poll, the first one of an empty library included |
| FolderHashLaws.NewFoldersGetParents | backend/services/folder_hash_service.py:121-142 | every folder created below the root gets its parent's id, and a hash only on the first poll |
| FolderHashLaws.VanishedIsGone | backend/services/folder_hash_service.py:101-118 | a known folder counts as vanished if and only if it is not on disk, is under the root and is under nothing unlistable |
| FolderHashLaws.PollReports | backend/services/folder_hash_service.py:166-214 | a folder is reported if and only if it has a row, is not in flight, and what the disk makes of its hash (empty when gone) is not what is stored |
| FolderHashLaws.PendingAre | backend/services/folder_hash_service.py:145-163 | the hashes to store are those of every folder seen or gone that has a row and is not in flight, changed or not |
| FolderHashLaws.MissingRootIsQuiet | backend/services/folder_hash_service.py:182-185 | without a root directory a poll reports and changes nothing |
| FolderHashLaws.RowsOfPoll | backend/services/folder_hash_service.py:121-142 | known rows are untouched, and new ones are exactly the folders seen for the first time, with no hash |
| FolderHashLaws.PollConverges | backend/services/folder_hash_service.py:145-163 | once its hashes are stored the next poll of the unchanged disk reports exactly the folders that were in flight, are not any more, and still differ |
| FolderHashLaws.UnchangedDiskIsQuiet | backend/services/folder_hash_service.py:166-214 | with nothing in flight that is no folder: a changed or vanished one is reported once |
| FolderHashLaws.FirstPollIsQuiet | backend/services/folder_hash_service.py:191-195 | the first poll of an empty library reports nothing, nor does the next of the same disk |

## Left out

- TuneInRules.WalkForward: the loader is a finite log read whole; a loader that fails in mid-walk is not modelled.
- TuneInLaws.TuneInSound: the wall clock is a parameter; mapping a real date into the station's year (`station_wall_clock`, `tune_in_days`, `StationYear`) is calendar arithmetic.
- TuneInLaws.ResumeSound: bookmark expiry and its storage are one comparison and one row.
- Cue gains pass through cue points unchanged; the finiteness of floats is not modelled.
- SongMatchingLaws.PrecheckNeverChangesResult: the search's cut-off after repeated failures appears only as an outage, because it counts calls across songs.
- SongMatchingLaws.ScorePolicy: reason codes are modelled, their detail texts are not; scores are reals.
- ArtistMemos.ResolveStage: the per-run cache of pre-check answers (`_reach_by_artist`) is not modelled, because the answer for one artist and MBID does not change within a run.
- MatchingRun.Run: a permanent MusicBrainz error that ends the run, transactions, telemetry and progress ticks are not modelled.
- PlaylistMatching.MatchPlaylist: songs are resolved before the first is written, where the program resolves each just before its write; the chain reads nothing the writes change, so the results are the same.
- Relay.RelayLoop: each turn says how its race of read, write, stall and disconnect ended; cancelling the losing tasks is not modelled.
- CueReader.Reader.Run: lines come already split and parsed with their arrival times; threads, the child process and the kept output tails are not modelled.
- CueReader.AnalyseBatch: a child that does not start is not modelled.
- Audience.AudienceOf: reading session logs is not modelled; times are integer microseconds.
- AudioHashes.ComputeAudioHash: the file does not change while it is read, and a read returns as much as there is.
- ScriptFingerprints.ScriptFingerprint: finding include lines in a text and resolving paths are a given function of path and text; symbolic links are resolved by it.
- ScriptCaches.AlwaysSafe: telling `on_failure` of each failed build, and a build cancelled at shutdown, are not modelled.
- ProgressFeeds.AlwaysGood: stopping the feed and a poll that raises an unforeseen error end the run and are not modelled; a poll that fails on the database is an item like any other.
- SyntheticWorkId.DecodeUndoesEncode: strings are sequences of Unicode scalars or lone surrogates, the latter refused by the encoder as in the source.
- FolderTrees.WalkFinds: a folder's own hash is given; a folder that changes while it is walked is not modelled.
- FolderTrees.WithinIsPrefix: the separator is `/`, and paths are canonical already.
- The abstract repositories, SQL, HTTP routes, uploads, settings, process control and sockets: plumbing, or behaviour of other programs.
- Liner cue states, `liner_due`, cue editing and sign-off clips: single branches that would add easy members.
