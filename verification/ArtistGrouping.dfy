/** The order a matching stage walks its songs in: each artist's songs together, artists in
    order of first appearance (`_grouped_by_artist`). */
module ArtistGrouping {
  import opened SongMatching

  function ArtistsOf(songs: seq<Song>): set<int> {
    set s | s in songs :: s.artistId
  }

  /** Each artist's number, counted in order of first appearance. */
  function FirstSeen(songs: seq<Song>): (ranks: map<int, nat>)
    ensures ranks.Keys == ArtistsOf(songs)
  {
    if songs == [] then map[]
    else
      var last := |songs| - 1;
      var ranks := FirstSeen(songs[..last]);
      assert songs == songs[..last] + [songs[last]];
      if songs[last].artistId in ranks then ranks else ranks[songs[last].artistId := |ranks|]
  }

  /** Where an artist's first song is; past the end when it has none. */
  function FirstIndex(songs: seq<Song>, artist: int): (index: nat)
    ensures index <= |songs| && (index < |songs| ==> songs[index].artistId == artist)
    ensures forall i :: 0 <= i < index ==> songs[i].artistId != artist
  {
    if songs == [] || songs[0].artistId == artist then 0 else 1 + FirstIndex(songs[1..], artist)
  }

  /** A stable sort puts a song after every song whose artist ranks no later. */
  function InsertStable(song: Song, sorted: seq<Song>, ranks: map<int, nat>): seq<Song>
    requires song.artistId in ranks && forall s :: s in sorted ==> s.artistId in ranks
  {
    if sorted == [] || ranks[song.artistId] < ranks[sorted[0].artistId] then [song] + sorted
    else [sorted[0]] + InsertStable(song, sorted[1..], ranks)
  }

  lemma {:induction false} InsertStableKeeps(song: Song, sorted: seq<Song>, ranks: map<int, nat>)
    requires song.artistId in ranks && forall s :: s in sorted ==> s.artistId in ranks
    ensures multiset(InsertStable(song, sorted, ranks)) == multiset(sorted) + multiset{song}
  {
    if sorted != [] && ranks[song.artistId] >= ranks[sorted[0].artistId] {
      assert sorted == [sorted[0]] + sorted[1..];
      InsertStableKeeps(song, sorted[1..], ranks);
    }
  }

  lemma {:induction false} SameMembers(a: seq<Song>, b: seq<Song>)
    requires multiset(a) == multiset(b)
    ensures forall s :: s in a ==> s in b
  {
    forall s | s in a ensures s in b {
      assert s in multiset(a);
    }
  }

  function StableSort(songs: seq<Song>, ranks: map<int, nat>): (sorted: seq<Song>)
    requires forall s :: s in songs ==> s.artistId in ranks
    ensures multiset(sorted) == multiset(songs)
    ensures forall s :: s in sorted ==> s in songs
  {
    if songs == [] then []
    else
      var last := |songs| - 1;
      var sorted := StableSort(songs[..last], ranks);
      var all := InsertStable(songs[last], sorted, ranks);
      assert songs == songs[..last] + [songs[last]];
      InsertStableKeeps(songs[last], sorted, ranks);
      SameMembers(all, songs);
      all
  }

  function Grouped(songs: seq<Song>): seq<Song> {
    StableSort(songs, FirstSeen(songs))
  }

  /** The songs grouped by artist: numbered in one pass, then sorted stably by number. */
  method GroupByArtist(songs: seq<Song>) returns (grouped: seq<Song>)
    ensures grouped == Grouped(songs)
  {
    var firstSeen: map<int, nat> := map[];
    for i := 0 to |songs|
      invariant firstSeen == FirstSeen(songs[..i])
    {
      assert songs[..i + 1][..i] == songs[..i];
      if songs[i].artistId !in firstSeen {
        firstSeen := firstSeen[songs[i].artistId := |firstSeen|];
      }
    }
    assert songs[..|songs|] == songs;
    grouped := StableSort(songs, firstSeen);
  }

  // ---- What grouping promises ----

  function SongsOf(songs: seq<Song>, artist: int): seq<Song> {
    if songs == [] then []
    else (if songs[0].artistId == artist then [songs[0]] else []) + SongsOf(songs[1..], artist)
  }

  ghost predicate RankSorted(songs: seq<Song>, ranks: map<int, nat>) {
    && (forall s :: s in songs ==> s.artistId in ranks)
    && forall i, j :: 0 <= i < j < |songs| ==> ranks[songs[i].artistId] <= ranks[songs[j].artistId]
  }

  lemma {:induction false} InsertStableIn(song: Song, sorted: seq<Song>, ranks: map<int, nat>)
    requires song.artistId in ranks && forall s :: s in sorted ==> s.artistId in ranks
    ensures forall s :: s in InsertStable(song, sorted, ranks) ==> s in sorted || s == song
  {
    var all := InsertStable(song, sorted, ranks);
    InsertStableKeeps(song, sorted, ranks);
    forall s | s in all ensures s in sorted || s == song {
      assert s in multiset(all);
    }
  }

  lemma {:induction false} RankSortedHead(head: Song, rest: seq<Song>, ranks: map<int, nat>)
    requires RankSorted(rest, ranks) && head.artistId in ranks
    requires forall s :: s in rest ==> ranks[head.artistId] <= ranks[s.artistId]
    ensures RankSorted([head] + rest, ranks)
  {
    var all := [head] + rest;
    forall i, j | 0 <= i < j < |all| ensures ranks[all[i].artistId] <= ranks[all[j].artistId] {
      assert all[j] == rest[j - 1] && rest[j - 1] in rest;
    }
  }

  lemma {:induction false} HeadRanksFirst(sorted: seq<Song>, ranks: map<int, nat>)
    requires RankSorted(sorted, ranks) && sorted != []
    ensures forall s :: s in sorted ==> ranks[sorted[0].artistId] <= ranks[s.artistId]
  {
    forall s | s in sorted ensures ranks[sorted[0].artistId] <= ranks[s.artistId] {
      var i :| 0 <= i < |sorted| && sorted[i] == s;
    }
  }

  lemma {:induction false} InsertStableSorted(song: Song, sorted: seq<Song>, ranks: map<int, nat>)
    requires song.artistId in ranks && RankSorted(sorted, ranks)
    ensures RankSorted(InsertStable(song, sorted, ranks), ranks)
  {
    if sorted == [] {
    } else {
      HeadRanksFirst(sorted, ranks);
      if ranks[song.artistId] < ranks[sorted[0].artistId] {
        RankSortedHead(song, sorted, ranks);
      } else {
        InsertStableSorted(song, sorted[1..], ranks);
        InsertStableIn(song, sorted[1..], ranks);
        RankSortedHead(sorted[0], InsertStable(song, sorted[1..], ranks), ranks);
      }
    }
  }

  lemma {:induction false} SongsOfHead(song: Song, rest: seq<Song>, artist: int)
    ensures SongsOf([song] + rest, artist)
         == (if song.artistId == artist then [song] else []) + SongsOf(rest, artist)
  {
    assert ([song] + rest)[1..] == rest;
  }

  lemma {:induction false} Regroup(a: seq<Song>, b: seq<Song>, c: seq<Song>)
    ensures a + b + c == a + (b + c)
  {
  }

  lemma {:induction false} SongsOfAppend(a: seq<Song>, b: seq<Song>, artist: int)
    ensures SongsOf(a + b, artist) == SongsOf(a, artist) + SongsOf(b, artist)
  {
    if a == [] {
      assert a + b == b;
    } else {
      var rest := a[1..];
      assert a == [a[0]] + rest;
      Regroup([a[0]], rest, b);
      SongsOfHead(a[0], rest, artist);
      SongsOfHead(a[0], rest + b, artist);
      SongsOfAppend(rest, b, artist);
      Regroup(if a[0].artistId == artist then [a[0]] else [], SongsOf(rest, artist), SongsOf(b, artist));
    }
  }

  lemma {:induction false} NoSongsOf(songs: seq<Song>, artist: int)
    requires forall s :: s in songs ==> s.artistId != artist
    ensures SongsOf(songs, artist) == []
  {
    if songs == [] {
    } else {
      NoSongsOf(songs[1..], artist);
    }
  }

  lemma {:induction false} LaterRanksAreOthers(song: Song, sorted: seq<Song>, ranks: map<int, nat>)
    requires song.artistId in ranks && RankSorted(sorted, ranks)
    requires sorted != [] && ranks[song.artistId] < ranks[sorted[0].artistId]
    ensures forall s :: s in sorted ==> s.artistId != song.artistId
  {
    forall s | s in sorted ensures s.artistId != song.artistId {
      var i :| 0 <= i < |sorted| && sorted[i] == s;
    }
  }

  lemma {:induction false} InsertStableLast(song: Song, sorted: seq<Song>, ranks: map<int, nat>, artist: int)
    requires song.artistId in ranks && RankSorted(sorted, ranks)
    ensures SongsOf(InsertStable(song, sorted, ranks), artist)
         == SongsOf(sorted, artist) + if song.artistId == artist then [song] else []
  {
    if sorted == [] {
    } else if ranks[song.artistId] < ranks[sorted[0].artistId] {
      SongsOfHead(song, sorted, artist);
      if song.artistId == artist {
        LaterRanksAreOthers(song, sorted, ranks);
        NoSongsOf(sorted, artist);
      }
    } else {
      SongsOfHead(sorted[0], InsertStable(song, sorted[1..], ranks), artist);
      InsertStableLast(song, sorted[1..], ranks, artist);
    }
  }

  lemma {:induction false} StableSortSorts(songs: seq<Song>, ranks: map<int, nat>)
    requires forall s :: s in songs ==> s.artistId in ranks
    ensures RankSorted(StableSort(songs, ranks), ranks)
  {
    if songs == [] {
    } else {
      var last := |songs| - 1;
      StableSortSorts(songs[..last], ranks);
      InsertStableSorted(songs[last], StableSort(songs[..last], ranks), ranks);
    }
  }

  lemma {:induction false} SongsOfLast(songs: seq<Song>, artist: int)
    requires songs != []
    ensures
      var last := songs[|songs| - 1];
      SongsOf(songs, artist)
      == SongsOf(songs[..|songs| - 1], artist) + if last.artistId == artist then [last] else []
  {
    var last := |songs| - 1;
    assert songs == songs[..last] + [songs[last]];
    SongsOfAppend(songs[..last], [songs[last]], artist);
    assert [songs[last]][1..] == [];
  }

  /** Sorting is stable: every artist's songs keep their order. */
  lemma {:induction false} StableSortKeepsOrder(songs: seq<Song>, ranks: map<int, nat>, artist: int)
    requires forall s :: s in songs ==> s.artistId in ranks
    ensures SongsOf(StableSort(songs, ranks), artist) == SongsOf(songs, artist)
  {
    if songs == [] {
    } else {
      var last := |songs| - 1;
      var sorted := StableSort(songs[..last], ranks);
      StableSortKeepsOrder(songs[..last], ranks, artist);
      StableSortSorts(songs[..last], ranks);
      InsertStableLast(songs[last], sorted, ranks, artist);
      SongsOfLast(songs, artist);
    }
  }

  /** No artist's songs are split by another's. */
  ghost predicate Contiguous(songs: seq<Song>) {
    forall i, j, k :: 0 <= i < j < k < |songs| && songs[i].artistId == songs[k].artistId
      ==> songs[j].artistId == songs[i].artistId
  }

  lemma {:induction false} RanksAreNumbers(songs: seq<Song>)
    ensures forall a :: a in FirstSeen(songs) ==> FirstSeen(songs)[a] < |FirstSeen(songs)|
    ensures forall a, b :: a in FirstSeen(songs) && b in FirstSeen(songs) && FirstSeen(songs)[a] == FirstSeen(songs)[b]
                           ==> a == b
  {
    if songs == [] {
    } else {
      RanksAreNumbers(songs[..|songs| - 1]);
    }
  }

  lemma {:induction false} HasFirst(songs: seq<Song>, artist: int)
    requires artist in ArtistsOf(songs)
    ensures FirstIndex(songs, artist) < |songs|
  {
    var s :| s in songs && s.artistId == artist;
    var i :| 0 <= i < |songs| && songs[i] == s;
    assert songs[i].artistId == artist;
  }

  lemma {:induction false} SeenBefore(songs: seq<Song>, artist: int)
    requires songs != [] && artist in ArtistsOf(songs[..|songs| - 1])
    ensures FirstIndex(songs, artist) == FirstIndex(songs[..|songs| - 1], artist) < |songs| - 1
  {
    var before := songs[..|songs| - 1];
    HasFirst(before, artist);
    var i, j := FirstIndex(before, artist), FirstIndex(songs, artist);
    assert songs[i] == before[i];
    assert j <= i;
    assert before[j] == songs[j];
  }

  lemma {:induction false} NotSeenBefore(songs: seq<Song>, artist: int)
    requires songs != [] && artist !in ArtistsOf(songs[..|songs| - 1])
    ensures FirstIndex(songs, artist) >= |songs| - 1
  {
    forall i | 0 <= i < |songs| - 1 ensures songs[i].artistId != artist {
      assert songs[i] == songs[..|songs| - 1][i];
    }
  }

  /** The lower number is the artist seen first. */
  lemma {:induction false} RankIsFirstAppearance(songs: seq<Song>, a: int, b: int)
    requires a in FirstSeen(songs) && b in FirstSeen(songs) && FirstSeen(songs)[a] < FirstSeen(songs)[b]
    ensures FirstIndex(songs, a) < FirstIndex(songs, b)
  {
    var last := |songs| - 1;
    var before := songs[..last];
    RanksAreNumbers(before);
    assert a in FirstSeen(before);
    SeenBefore(songs, a);
    if b in FirstSeen(before) {
      RankIsFirstAppearance(before, a, b);
      SeenBefore(songs, b);
    } else {
      NotSeenBefore(songs, b);
    }
  }

  /** Songs sorted by their artists' numbers keep each artist's together. */
  lemma {:induction false} SortedIsContiguous(songs: seq<Song>, sorted: seq<Song>)
    requires RankSorted(sorted, FirstSeen(songs))
    ensures Contiguous(sorted)
  {
    var ranks := FirstSeen(songs);
    RanksAreNumbers(songs);
    forall i, j, k | 0 <= i < j < k < |sorted| && sorted[i].artistId == sorted[k].artistId
      ensures sorted[j].artistId == sorted[i].artistId
    {
      assert sorted[j] in sorted && sorted[i] in sorted;
      assert ranks[sorted[i].artistId] <= ranks[sorted[j].artistId] <= ranks[sorted[k].artistId];
    }
  }

  lemma {:induction false} SortedInOrder(songs: seq<Song>, sorted: seq<Song>, i: nat, j: nat)
    requires RankSorted(sorted, FirstSeen(songs)) && i < j < |sorted| && sorted[i].artistId != sorted[j].artistId
    ensures FirstIndex(songs, sorted[i].artistId) < FirstIndex(songs, sorted[j].artistId)
  {
    assert sorted[i] in sorted && sorted[j] in sorted;
    RanksAreNumbers(songs);
    RankIsFirstAppearance(songs, sorted[i].artistId, sorted[j].artistId);
  }

  /** Grouping keeps all the songs, each artist's together and in their order, and the artists in the
      order they first came in. */
  lemma {:induction false} GroupedLaws(songs: seq<Song>)
    ensures multiset(Grouped(songs)) == multiset(songs)
    ensures forall artist :: SongsOf(Grouped(songs), artist) == SongsOf(songs, artist)
    ensures Contiguous(Grouped(songs))
    ensures
      var grouped := Grouped(songs);
      forall i, j :: 0 <= i < j < |grouped| && grouped[i].artistId != grouped[j].artistId ==>
        FirstIndex(songs, grouped[i].artistId) < FirstIndex(songs, grouped[j].artistId)
  {
    var ranks, grouped := FirstSeen(songs), Grouped(songs);
    forall artist ensures SongsOf(grouped, artist) == SongsOf(songs, artist) {
      StableSortKeepsOrder(songs, ranks, artist);
    }
    StableSortSorts(songs, ranks);
    SortedIsContiguous(songs, grouped);
    forall i, j | 0 <= i < j < |grouped| && grouped[i].artistId != grouped[j].artistId
      ensures FirstIndex(songs, grouped[i].artistId) < FirstIndex(songs, grouped[j].artistId)
    {
      SortedInOrder(songs, grouped, i, j);
    }
  }
}
