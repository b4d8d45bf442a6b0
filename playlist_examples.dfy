/** Playlist store scenarios, each on a freshly emptied store. */
module PlaylistExamples {
  import opened Wrappers
  import opened Types
  import opened MockData
  import opened CatalogQuery
  import opened PlaylistOps
  import opened PlaylistStore

  /** An empty store reads as no playlists; after a save, a read returns
      exactly what was saved. */
  method SaveThenLoad(ps: seq<Playlist>) returns (before: seq<Playlist>, after: seq<Playlist>)
    ensures before == [] && after == ps
  {
    var store := new Store();
    before := store.GetPlaylists();
    store.SavePlaylists(ps);
    after := store.GetPlaylists();
  }

  /** Creating a playlist, adding a song to it and listing its songs
      yields the full catalog record of that song (nothing if the catalog
      does not know the id). */
  method CreateAddThenList(catalog: seq<Song>, id: string, songId: string) returns (songs: seq<Song>)
    ensures GetSongById(catalog, songId).Some? ==> songs == [GetSongById(catalog, songId).value]
    ensures GetSongById(catalog, songId).None? ==> songs == []
  {
    var store := new Store();
    var p := store.CreatePlaylist(id, "X", None);
    assert store.Loaded() == [p] && [p][0] == p && [p][1..] == [];
    assert p.songIds + [songId] == [songId];
    var added := store.AddSongToPlaylist(id, songId);
    assert store.Loaded() == [p.(songIds := [songId])];
    assert FindPlaylist(store.Loaded(), id) == Some(0);
    assert [songId][1..] == [] && ResolveSongIds(catalog, []) == [];
    assert ResolveSongIds(catalog, [songId]) ==
      (match GetSongById(catalog, songId) case None => [] case Some(s) => [s]) + [];
    songs := store.GetSongsFromPlaylist(catalog, id);
  }

  /** In the fixed catalog "song1" is "Neon Interlude". */
  lemma FirstSongOfCatalog()
    ensures GetSongById(MockSongs, "song1") == Some(NeonInterlude)
  {
  }

  /** On the fixed catalog the first-run playlist holds "song1" and "song2". */
  lemma SeedSongIdsOfCatalog()
    ensures SeedSongIds(MockSongs) == ["song1", "song2"]
  {
  }
}
