/** The playlist store: one persisted slot holding the whole collection,
    read and written back whole by every operation. */
module PlaylistStore {
  import opened Wrappers
  import opened Types
  import opened Seqs
  import opened CatalogQuery
  import opened PlaylistOps

  class Store {
    /** The browser storage slot; `None` until something has been saved. */
    var slot: Option<seq<Playlist>>

    /** The collection a read of the slot yields. */
    function Loaded(): seq<Playlist>
      reads this
    {
      match slot
      case None => []
      case Some(ps) => ps
    }

    /** No stored playlist lists a song twice. */
    ghost predicate Valid()
      reads this
    {
      AllNoDup(Loaded())
    }

    /** Empty storage, as on first use. */
    constructor ()
      ensures slot == None && Valid()
    {
      slot := None;
    }

    /** `getPlaylists`: nothing stored reads as the empty collection. */
    method GetPlaylists() returns (ps: seq<Playlist>)
      ensures slot.None? ==> ps == []
      ensures slot.Some? ==> ps == slot.value
    {
      ps := Loaded();
    }

    /** `savePlaylists`: replaces the stored collection. */
    method SavePlaylists(ps: seq<Playlist>)
      modifies this
      ensures slot == Some(ps)
    {
      slot := Some(ps);
    }

    /** `createPlaylist`, with the new id passed in: appends one playlist
        with no songs and saves. */
    method CreatePlaylist(id: string, name: string, description: Option<string>) returns (p: Playlist)
      modifies this
      ensures p == Playlist(id, name, [], description)
      ensures slot == Some(old(Loaded()) + [p])
      ensures old(Valid()) ==> Valid()
    {
      var playlists := GetPlaylists();
      p := Playlist(id, name, [], description);
      playlists := playlists + [p];
      SavePlaylists(playlists);
    }

    /** `addSongToPlaylist`: appends the song to the first playlist with the
        id and saves; an unknown id or a song already listed saves nothing
        and yields `None`. */
    method AddSongToPlaylist(playlistId: string, songId: string) returns (r: Option<Playlist>)
      modifies this
      ensures WithSongAdded(old(Loaded()), playlistId, songId).None? ==> r == None && slot == old(slot)
      ensures WithSongAdded(old(Loaded()), playlistId, songId).Some? ==>
                slot == WithSongAdded(old(Loaded()), playlistId, songId)
                && FindPlaylist(Loaded(), playlistId).Some?
                && r == Some(Loaded()[FindPlaylist(Loaded(), playlistId).value])
      ensures old(Valid()) ==> Valid()
    {
      var playlists := GetPlaylists();
      AddSongKeepsNoDup(playlists, playlistId, songId);
      var index := FindPlaylist(playlists, playlistId);
      if index.Some? && songId !in playlists[index.value].songIds {
        var i := index.value;
        var updated := playlists[i := playlists[i].(songIds := playlists[i].songIds + [songId])];
        FindPlaylistByIds(playlists, updated, playlistId);
        playlists := updated;
        SavePlaylists(playlists);
        r := Some(playlists[i]);
      } else {
        r := None;
      }
    }

    /** `removeSongFromPlaylist`: drops every occurrence of the song from the
        first playlist with the id and saves; an unknown id saves nothing and
        yields `None`. */
    method RemoveSongFromPlaylist(playlistId: string, songId: string) returns (r: Option<Playlist>)
      modifies this
      ensures FindPlaylist(old(Loaded()), playlistId).None? ==> r == None && slot == old(slot)
      ensures FindPlaylist(old(Loaded()), playlistId).Some? ==>
                slot == WithSongRemoved(old(Loaded()), playlistId, songId)
                && FindPlaylist(Loaded(), playlistId).Some?
                && r == Some(Loaded()[FindPlaylist(Loaded(), playlistId).value])
      ensures old(Valid()) ==> Valid()
    {
      var playlists := GetPlaylists();
      RemoveSongKeepsNoDup(playlists, playlistId, songId);
      var index := FindPlaylist(playlists, playlistId);
      if index.Some? {
        var i := index.value;
        var updated := playlists[i := playlists[i].(songIds := Filter(playlists[i].songIds, OtherSong(songId)))];
        FindPlaylistByIds(playlists, updated, playlistId);
        playlists := updated;
        SavePlaylists(playlists);
        r := Some(playlists[i]);
      } else {
        r := None;
      }
    }

    /** `deletePlaylist`: keeps the playlists with other ids and saves, even
        when nothing was removed. */
    method DeletePlaylist(playlistId: string)
      modifies this
      ensures slot == Some(Filter(old(Loaded()), OtherPlaylist(playlistId)))
      ensures old(Valid()) ==> Valid()
    {
      var playlists := GetPlaylists();
      DeletePlaylistEffect(playlists, playlistId);
      playlists := Filter(playlists, OtherPlaylist(playlistId));
      SavePlaylists(playlists);
    }

    /** `getSongsFromPlaylist`: the catalog songs of the first playlist with
        the id, looked up one id at a time. */
    method GetSongsFromPlaylist(songs: seq<Song>, playlistId: string) returns (result: seq<Song>)
      ensures result == PlaylistSongs(songs, Loaded(), playlistId)
    {
      var playlists := GetPlaylists();
      var index := FindPlaylist(playlists, playlistId);
      if index.None? {
        return [];
      }
      var ids := playlists[index.value].songIds;
      result := [];
      var k := 0;
      while k < |ids|
        invariant 0 <= k <= |ids|
        invariant result == ResolveSongIds(songs, ids[..k])
      {
        var song := GetSongById(songs, ids[k]);
        ResolveSongIdsSnoc(songs, ids[..k], ids[k]);
        assert ids[..k + 1] == ids[..k] + [ids[k]];
        if song.Some? {
          result := result + [song.value];
        }
        k := k + 1;
      }
      assert ids[..k] == ids;
    }

    /** The first-run seeding, over the catalog `songs`: when nothing is
        stored, create "My Favorites" and add the first two catalog songs
        to it, each only if the catalog has it. */
    method SeedIfEmpty(songs: seq<Song>, id: string)
      modifies this
      ensures old(Loaded()) == [] ==>
                slot == Some([Playlist(id, "My Favorites", SeedSongIds(songs),
                                       Some("A collection of my favorite tracks."))])
      ensures old(Loaded()) != [] ==> slot == old(slot)
      ensures old(Valid()) ==> Valid()
    {
      var playlists := GetPlaylists();
      if |playlists| == 0 {
        var initial := CreatePlaylist(id, "My Favorites", Some("A collection of my favorite tracks."));
        assert Loaded() == [initial] && [initial][1..] == [];
        if |songs| > 0 {
          assert FindPlaylist([initial], id) == Some(0);
          assert initial.songIds + [songs[0].id] == [songs[0].id];
          assert [initial][0 := initial.(songIds := [songs[0].id])] == [initial.(songIds := [songs[0].id])];
          var _ := AddSongToPlaylist(initial.id, songs[0].id);
          assert Loaded() == [initial.(songIds := [songs[0].id])];
        }
        if |songs| > 1 {
          ghost var first := initial.(songIds := [songs[0].id]);
          assert FindPlaylist([first], id) == Some(0);
          assert first.songIds + [songs[1].id] == [songs[0].id, songs[1].id];
          assert [first][0 := first.(songIds := [songs[0].id, songs[1].id])]
              == [first.(songIds := [songs[0].id, songs[1].id])];
          assert songs[1].id in [songs[0].id] <==> songs[1].id == songs[0].id;
          var _ := AddSongToPlaylist(initial.id, songs[1].id);
        }
      }
    }
  }

  /** The song ids the first-run playlist ends up with: the first two
      catalog songs, the second only when its id differs from the first
      (adding an already listed song is refused). */
  function SeedSongIds(songs: seq<Song>): (r: seq<string>)
    ensures |r| <= 2 && |r| <= |songs| && NoDup(r)
  {
    if |songs| == 0 then []
    else if |songs| == 1 || songs[1].id == songs[0].id then [songs[0].id]
    else [songs[0].id, songs[1].id]
  }
}
