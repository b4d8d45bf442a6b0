# Music catalog and playlist store — Dafny model

This project models the data-access layer of a small music-catalog browser
(`music-knowledge-explorer/services/musicKnowledgeService.ts`). The layer has
two parts.

- **Catalog queries.** Id lookups over a fixed list of artists, albums and
  songs, and `getSongs`: an optional case-insensitive free-text filter
  followed by one optional filter per field of a criteria object (genre,
  mood, minimum and maximum tempo, key, instrument).
- **Playlist store.** A collection of playlists kept in one browser storage
  slot. Every operation reads the whole collection, changes it and writes it
  back.

Layout, one module per file:

| file | module | contents |
|---|---|---|
| `wrappers.dfy` | `Wrappers` | `Option`, for `T \| undefined` and optional fields |
| `seqs.dfy` | `Seqs` | `Filter` (`Array.filter`), `FindFirst` (`findIndex`), `IsSubsequence`, `NoDup` and their lemmas |
| `text.dfy` | `Text` | ASCII `ToLower` and substring `Contains` (`includes`) |
| `types.dfy` | `Types` | the entities: `Song`, `Artist`, `Album`, `Playlist`, `FilterCriteria`, `Mood`, `KeySignature` |
| `mock_data.dfy` | `MockData` | the fixed catalog (five artists, five albums, five songs) |
| `catalog_query.dfy` | `CatalogQuery` | the lookups; `getSongs` as a pipeline of filter stages; the single-predicate description `Selected` and the lemmas connecting the two |
| `catalog_examples.dfy` | `CatalogExamples` | the tempo-range and "jazz" queries on the fixed catalog |
| `playlist_ops.dfy` | `PlaylistOps` | adding and removing a song as functions on the stored list, defined by recursion to the first playlist with the id; deletion as a filter of the list; resolution of a playlist's song ids; and their lemmas (creation lives only in the store) |
| `playlist_store.dfy` | `PlaylistStore` | class `Store`, whose field `slot: Option<seq<Playlist>>` is the storage slot (`None` = nothing stored), with one method per service operation |
| `playlist_examples.dfy` | `PlaylistExamples` | store scenarios run on a fresh store |

Modelling choices:

- **Truthiness.** The source tests its optional inputs for truthiness.
  - A string criterion or query counts as set only when present and non-empty (`IsSet`).
  - A tempo bound counts as set only when present and non-zero (`IsSetTempo`).
  - Mood and key values are enum strings, which are never empty, so they are set whenever present.
- **Catalog as a parameter.** The query functions and the store's
  song-resolving methods take the catalog as an argument. The fixed
  catalog is `MockData.MockCatalog`.
- **Ids are inputs.** The store's methods are given the new playlist id.
  The source uses a timestamp.
- **Behaviour as coded.** The model follows the code:
  - `createPlaylist` does not validate the name. Trimming happens in the
    calling component.
  - `addSongToPlaylist` returns `undefined` (`None`) when the song is already
    listed. It does not return the unchanged playlist.
  - `deletePlaylist` saves even when nothing was deleted. So an empty slot
    becomes `Some([])`, which reads back as the same empty list.
- **First match.** When several stored playlists share an id, add, remove
  and resolve act on the first of them. Delete removes all of them.

## Model

| member | source | states |
|---|---|---|
| `Seqs.Filter` | music-knowledge-explorer/services/musicKnowledgeService.ts:117-143 | a filter never yields more elements than its input |
| `Seqs.FilterMembers` | music-knowledge-explorer/services/musicKnowledgeService.ts:117-143 | a filter keeps exactly the input elements satisfying the predicate |
| `Seqs.FilterIsSubsequence` | music-knowledge-explorer/services/musicKnowledgeService.ts:113-146 | a filter's result is a sub-list of its input in the input's order |
| `Seqs.FilterThen` | music-knowledge-explorer/services/musicKnowledgeService.ts:126-145 | filtering by p and then by q equals one filter by p-and-q, which is why the order of the stages does not matter |
| `Seqs.FilterAll` | music-knowledge-explorer/services/musicKnowledgeService.ts:194 | a filter that every element passes returns its input unchanged |
| `Seqs.FilterNone` | music-knowledge-explorer/services/musicKnowledgeService.ts:133-138 | a filter that no element passes returns the empty list |
| `Seqs.FilterKeepsNoDup` | music-knowledge-explorer/services/musicKnowledgeService.ts:194 | filtering a duplicate-free list leaves it duplicate-free |
| `Seqs.FindFirst` | music-knowledge-explorer/services/musicKnowledgeService.ts:181 | `findIndex`: no index iff no element matches; otherwise the index of a matching element with no match before it |
| `Types.MoodName` | music-knowledge-explorer/types.ts:2-13 | every mood's string value is non-empty, so a given mood is always a set criterion |
| `Text.ToLower` | music-knowledge-explorer/services/musicKnowledgeService.ts:116-122 | lower-casing keeps the length and lower-cases each ASCII letter in place |
| `Text.ToLowerIdempotent` | music-knowledge-explorer/services/musicKnowledgeService.ts:116-118 | lower-casing already lower-cased text changes nothing |
| `Text.Contains` | music-knowledge-explorer/services/musicKnowledgeService.ts:118-122 | `includes`: the empty needle occurs in every text, and a needle longer than the text never occurs |
| `Text.ContainsAt` | music-knowledge-explorer/services/musicKnowledgeService.ts:118-122 | `includes` holds exactly when the needle occurs in the text at some offset |
| `CatalogQuery.GetArtistById` | music-knowledge-explorer/services/musicKnowledgeService.ts:96-99 | not found iff no artist has the id; otherwise the first artist with that id |
| `CatalogQuery.GetAlbumById` | music-knowledge-explorer/services/musicKnowledgeService.ts:106-109 | not found iff no album has the id; otherwise the first album with that id |
| `CatalogQuery.GetSongById` | music-knowledge-explorer/services/musicKnowledgeService.ts:149-152 | not found iff no song has the id; otherwise the first song with that id |
| `CatalogQuery.QueryStageFilters` | music-knowledge-explorer/services/musicKnowledgeService.ts:115-124 | the free-text stage adds the text-match condition to the selection, and only when the query is non-empty |
| `CatalogQuery.GenreStageFilters` | music-knowledge-explorer/services/musicKnowledgeService.ts:127-129 | the genre stage adds "genre listed", only when a non-empty genre is given |
| `CatalogQuery.MoodStageFilters` | music-knowledge-explorer/services/musicKnowledgeService.ts:130-132 | the mood stage adds "mood listed", only when a mood is given |
| `CatalogQuery.MinTempoStageFilters` | music-knowledge-explorer/services/musicKnowledgeService.ts:133-135 | the minimum-tempo stage adds tempo >= bound, only when the bound is non-zero |
| `CatalogQuery.MaxTempoStageFilters` | music-knowledge-explorer/services/musicKnowledgeService.ts:136-138 | the maximum-tempo stage adds tempo <= bound, only when the bound is non-zero |
| `CatalogQuery.KeyStageFilters` | music-knowledge-explorer/services/musicKnowledgeService.ts:139-141 | the key stage adds "same key", only when a key is given |
| `CatalogQuery.InstrumentStageFilters` | music-knowledge-explorer/services/musicKnowledgeService.ts:142-144 | the instrument stage adds "instrument listed", only when a non-empty instrument is given |
| `CatalogQuery.GetSongs` | music-knowledge-explorer/services/musicKnowledgeService.ts:111-147 | the filtered list is never longer than the catalog |
| `CatalogQuery.GetSongsSelects` | music-knowledge-explorer/services/musicKnowledgeService.ts:111-147 | `getSongs` equals a single filter of the catalog by the conjunction of all set conditions (`Selected`) |
| `CatalogQuery.GetSongsNarrows` | music-knowledge-explorer/services/musicKnowledgeService.ts:113-146 | the result is no longer than the catalog, is an order-preserving sub-list of it, and holds a song iff the song is in the catalog and satisfies every set condition |
| `CatalogQuery.SearchMatchesText` | music-knowledge-explorer/services/musicKnowledgeService.ts:115-123 | with a non-empty query, every result matches the lower-cased query in its title, a genre, an instrument, a credited artist's name or a mood; every catalog song that matches and meets the criteria is returned |
| `CatalogQuery.CriteriaHoldOfResults` | music-knowledge-explorer/services/musicKnowledgeService.ts:126-145 | every returned song satisfies each criterion that is set: genre listed, mood listed, tempo within the bounds, same key, instrument listed |
| `CatalogQuery.GetSongsUnfiltered` | music-knowledge-explorer/services/musicKnowledgeService.ts:111-146 | with no query (absent or empty) and no criterion set, the whole catalog is returned in order |
| `CatalogQuery.InvertedTempoRangeIsEmpty` | music-knowledge-explorer/services/musicKnowledgeService.ts:133-138 | with both tempo bounds set and minimum above maximum, nothing is returned |
| `CatalogQuery.QueryIsCaseInsensitive` | music-knowledge-explorer/services/musicKnowledgeService.ts:115-122 | a query and its lower-cased form give the same result |
| `CatalogExamples.TempoRangeExample` | music-knowledge-explorer/services/musicKnowledgeService.ts:133-138 | on the fixed catalog (tempos 90, 110, 140, 80, 136), the range 100..140 returns the songs at 110, 140 and 136 in that order |
| `CatalogExamples.JazzSearchFindsJazzGenre` | music-knowledge-explorer/services/musicKnowledgeService.ts:115-123 | a search for "jazz" returns every catalog song listing the genre "Jazz" |
| `CatalogExamples.JazzSearchExample` | music-knowledge-explorer/services/musicKnowledgeService.ts:20-86 | on the fixed catalog that search returns "Neon Interlude", "Feeling Good" and "So What" |
| `PlaylistOps.FindPlaylist` | music-knowledge-explorer/services/musicKnowledgeService.ts:181 | the playlist lookup finds the first playlist with the id, or reports that none has it |
| `PlaylistOps.FindPlaylistByIds` | music-knowledge-explorer/services/musicKnowledgeService.ts:181-183 | the lookup depends only on the ids, so changing a playlist's songs does not move it |
| `PlaylistOps.WithSongAdded` | music-knowledge-explorer/services/musicKnowledgeService.ts:179-188 | adding is refused when no playlist has the id or the first playlist with the id already lists the song; otherwise only that playlist changes, by appending the song at the end |
| `PlaylistOps.AddSongKeepsNoDup` | music-knowledge-explorer/services/musicKnowledgeService.ts:182-183 | adding keeps every playlist free of duplicate songs |
| `PlaylistOps.AddSongTwiceIsOnce` | music-knowledge-explorer/services/musicKnowledgeService.ts:182-183 | adding the same song again is refused, so two adds leave the same songs as one |
| `PlaylistOps.WithSongRemoved` | music-knowledge-explorer/services/musicKnowledgeService.ts:190-199 | removing is refused when no playlist has the id; otherwise only the first playlist with the id changes, by filtering out the song |
| `PlaylistOps.RemoveSongDropsAllOccurrences` | music-knowledge-explorer/services/musicKnowledgeService.ts:194 | after removal the song is not listed; every other id stays, in order, and no id is added |
| `PlaylistOps.RemoveAbsentSongIsNoOp` | music-knowledge-explorer/services/musicKnowledgeService.ts:193-195 | removing a song the playlist does not list leaves the collection unchanged |
| `PlaylistOps.RemoveSongKeepsNoDup` | music-knowledge-explorer/services/musicKnowledgeService.ts:194 | removing keeps every playlist free of duplicate songs |
| `PlaylistOps.DeletePlaylistEffect` | music-knowledge-explorer/services/musicKnowledgeService.ts:201-205 | delete removes every playlist with the id and keeps the others in order; an unknown id leaves the collection unchanged; the no-duplicates invariant is kept |
| `PlaylistOps.ResolveSongIds` | music-knowledge-explorer/services/musicKnowledgeService.ts:212-216 | resolution never yields more songs than there are ids |
| `PlaylistOps.ResolveSongIdsSnoc` | music-knowledge-explorer/services/musicKnowledgeService.ts:213-216 | resolving one more id appends that id's song when the catalog knows the id, and nothing otherwise |
| `PlaylistOps.ResolveSongIdsEffect` | music-knowledge-explorer/services/musicKnowledgeService.ts:207-218 | every resolved song is a catalog song whose id is listed; when every id resolves, position k holds the first catalog song with the k-th id |
| `PlaylistOps.ResolveSongIdsKeepsKnown` | music-knowledge-explorer/services/musicKnowledgeService.ts:212-216 | every listed id the catalog knows contributes its song to the result, so only unknown ids are dropped |
| `PlaylistOps.PlaylistSongs` | music-knowledge-explorer/services/musicKnowledgeService.ts:207-218 | an unknown playlist gives no songs; a known one gives at most one song per listed id |
| `PlaylistStore.Store.constructor` | music-knowledge-explorer/services/musicKnowledgeService.ts:155-159 | a new store has an empty slot and satisfies the invariant |
| `PlaylistStore.Store.GetPlaylists` | music-knowledge-explorer/services/musicKnowledgeService.ts:155-159 | an empty slot reads as no playlists; otherwise the read returns exactly what is stored |
| `PlaylistStore.Store.SavePlaylists` | music-knowledge-explorer/services/musicKnowledgeService.ts:161-164 | saving replaces the stored collection with the given one |
| `PlaylistStore.Store.CreatePlaylist` | music-knowledge-explorer/services/musicKnowledgeService.ts:166-177 | exactly one playlist is appended, with the given id, name and description and no songs; earlier entries are unchanged; the invariant is kept |
| `PlaylistStore.Store.AddSongToPlaylist` | music-knowledge-explorer/services/musicKnowledgeService.ts:179-188 | when refused, returns `None` and leaves the slot untouched; otherwise stores the `WithSongAdded` collection and returns the updated playlist; the invariant is kept |
| `PlaylistStore.Store.RemoveSongFromPlaylist` | music-knowledge-explorer/services/musicKnowledgeService.ts:190-199 | an unknown id returns `None` and leaves the slot untouched; otherwise stores the `WithSongRemoved` collection and returns the updated playlist; the invariant is kept |
| `PlaylistStore.Store.DeletePlaylist` | music-knowledge-explorer/services/musicKnowledgeService.ts:201-205 | stores the loaded collection without the playlists with the id, even when none had it; the invariant is kept |
| `PlaylistStore.Store.GetSongsFromPlaylist` | music-knowledge-explorer/services/musicKnowledgeService.ts:207-218 | the loop returns nothing for an unknown playlist; otherwise it returns the catalog songs of the first playlist with the id, in list order, skipping ids the catalog does not know |
| `PlaylistStore.Store.SeedIfEmpty` | music-knowledge-explorer/services/musicKnowledgeService.ts:220-232 | on an empty store, leaves exactly one playlist "My Favorites" with its description, holding the first two catalog songs; a non-empty store is left untouched |
| `PlaylistStore.SeedSongIds` | music-knowledge-explorer/services/musicKnowledgeService.ts:225-230 | the seeded list has at most two ids, no more than the catalog has songs, and no duplicates |
| `PlaylistExamples.SaveThenLoad` | music-knowledge-explorer/services/musicKnowledgeService.ts:155-164 | a fresh store reads as empty, and a read after a save returns what was saved |
| `PlaylistExamples.CreateAddThenList` | music-knowledge-explorer/services/musicKnowledgeService.ts:166-218 | create, then add a song, then list: the result is exactly that song's full catalog record, or nothing if the catalog does not know the id |
| `PlaylistExamples.FirstSongOfCatalog` | music-knowledge-explorer/services/musicKnowledgeService.ts:20-33 | in the fixed catalog, "song1" resolves to "Neon Interlude" |
| `PlaylistExamples.SeedSongIdsOfCatalog` | music-knowledge-explorer/services/musicKnowledgeService.ts:224-230 | on the fixed catalog the seeded playlist holds "song1" and "song2" |

## Left out

- Simulated latency: the `setTimeout` delays and the `async`/`await`
  structure. Each operation is one atomic step here. The lost update that two
  interleaved read-modify-write calls can cause is therefore not modelled.
- Storage encoding: JSON serialisation to `localStorage`. The slot holds the
  collection itself. A failing write (for example, quota exceeded) is not
  modelled.
- Id generation: `Date.now()`. The id is a parameter, and uniqueness is not
  assumed, because the code does not guarantee it.
- Case folding: `toLowerCase` is modelled for ASCII letters only. Full
  Unicode case mapping is not modelled.
- Audio features: the floating-point measures (energy, danceability,
  valence, acousticness, instrumentalness) are omitted, since no query reads
  them. Tempo is a whole number, so NaN and fractional bounds are not
  modelled.
- `getArtists` and `getAlbums` return the fixed lists unchanged. They are
  the constants `MockData.MockArtists` and `MockData.MockAlbums`.
- First-run seeding: the source runs it once when the module loads, over
  the fixed catalog. `Store.SeedIfEmpty` is an explicit call taking the
  catalog songs as an argument. `Store.GetSongsFromPlaylist` also takes the
  catalog.
- CatalogExamples.JazzSearchExample: shows only that the three "Jazz" songs
  are returned. It does not show that the other two songs are excluded.
  Proving the absence of a substring in the literal catalog strings is too
  costly for the verifier.
- The language-model client (`services/geminiService.ts`) is not modelled.
  It returns canned text and does not affect which songs are returned.
- The React components, the icon and string constants, and the audio-feature
  display are not modelled. They hold presentation only.
