/** The playlist operations as transformations of the stored collection,
    defined by recursion over the list (the first playlist with the
    requested id is the one affected), with the properties the store
    relies on. */
module PlaylistOps {
  import opened Wrappers
  import opened Types
  import opened Seqs
  import opened CatalogQuery

  /** The invariant the store keeps: no playlist lists a song twice. */
  predicate AllNoDup(ps: seq<Playlist>)
  {
    forall p :: p in ps ==> NoDup(p.songIds)
  }

  /** The position of the first playlist with the id, or `None` when no
      playlist has it; the playlist found by id is the one at this position. */
  function FindPlaylist(ps: seq<Playlist>, playlistId: string): (r: Option<nat>)
    ensures r.None? <==> forall p :: p in ps ==> p.id != playlistId
    ensures r.Some? ==> r.value < |ps| && ps[r.value].id == playlistId
    ensures r.Some? ==> forall j :: 0 <= j < r.value ==> ps[j].id != playlistId
  {
    FindFirst(ps, (p: Playlist) => p.id == playlistId)
  }

  /** The lookup depends only on the ids, position by position. */
  lemma FindPlaylistByIds(ps: seq<Playlist>, qs: seq<Playlist>, playlistId: string)
    requires |ps| == |qs| && forall j :: 0 <= j < |ps| ==> ps[j].id == qs[j].id
    ensures FindPlaylist(ps, playlistId) == FindPlaylist(qs, playlistId)
  {
    var a := FindPlaylist(ps, playlistId);
    var b := FindPlaylist(qs, playlistId);
    if a.Some? {
      assert qs[a.value].id == playlistId && qs[a.value] in qs;
    }
    if b.Some? {
      assert ps[b.value].id == playlistId && ps[b.value] in ps;
    }
  }

  // ---------------------------------------------------------------------
  // addSongToPlaylist
  // ---------------------------------------------------------------------

  /** The first playlist with the id, in a list whose head has another id,
      is one position further on than in the tail. */
  lemma FindPlaylistPastHead(ps: seq<Playlist>, playlistId: string)
    requires ps != [] && ps[0].id != playlistId
    ensures FindPlaylist(ps, playlistId) ==
      match FindPlaylist(ps[1..], playlistId)
      case None => None
      case Some(i) => Some(i + 1)
  {
    assert forall p :: p in ps[1..] ==> p in ps;
    match FindPlaylist(ps[1..], playlistId)
    case None =>
    case Some(i) =>
      assert ps[i + 1] == ps[1..][i];
  }

  /** The collection after adding `songId` at the end of the first playlist
      with id `playlistId`, defined by recursion over the list. Only that
      playlist changes; the add is refused (`None`) when no playlist has the
      id or that playlist already lists the song. */
  function WithSongAdded(ps: seq<Playlist>, playlistId: string, songId: string): (r: Option<seq<Playlist>>)
    ensures r ==
      match FindPlaylist(ps, playlistId)
      case None => None
      case Some(i) =>
        if songId in ps[i].songIds then None
        else Some(ps[i := ps[i].(songIds := ps[i].songIds + [songId])])
  {
    if ps == [] then None
    else if ps[0].id == playlistId then
      assert FindPlaylist(ps, playlistId) == Some(0);
      assert [ps[0].(songIds := ps[0].songIds + [songId])] + ps[1..] == ps[0 := ps[0].(songIds := ps[0].songIds + [songId])];
      if songId in ps[0].songIds then None
      else Some([ps[0].(songIds := ps[0].songIds + [songId])] + ps[1..])
    else
      FindPlaylistPastHead(ps, playlistId);
      match WithSongAdded(ps[1..], playlistId, songId)
      case None => None
      case Some(rest) =>
        var i := FindPlaylist(ps[1..], playlistId).value;
        assert [ps[0]] + ps[1..][i := ps[1..][i].(songIds := ps[1..][i].songIds + [songId])]
            == ps[i + 1 := ps[i + 1].(songIds := ps[i + 1].songIds + [songId])];
        Some([ps[0]] + rest)
  }

  /** Adding keeps every playlist free of duplicate songs. */
  lemma AddSongKeepsNoDup(ps: seq<Playlist>, playlistId: string, songId: string)
    ensures AllNoDup(ps) && WithSongAdded(ps, playlistId, songId).Some? ==>
              AllNoDup(WithSongAdded(ps, playlistId, songId).value)
  {
    var idx := FindPlaylist(ps, playlistId);
    if AllNoDup(ps) && idx.Some? && songId !in ps[idx.value].songIds {
      var i := idx.value;
      assert ps[i] in ps;
      NoDupSnoc(ps[i].songIds, songId);
      var q := ps[i := ps[i].(songIds := ps[i].songIds + [songId])];
      forall p | p in q ensures NoDup(p.songIds) {
        var k :| 0 <= k < |q| && q[k] == p;
        if k != i {
          assert ps[k] in ps;
        }
      }
    }
  }

  /** Adding the same song a second time is refused, so the playlist ends
      as after adding it once. */
  lemma AddSongTwiceIsOnce(ps: seq<Playlist>, playlistId: string, songId: string)
    requires WithSongAdded(ps, playlistId, songId).Some?
    ensures WithSongAdded(WithSongAdded(ps, playlistId, songId).value, playlistId, songId) == None
  {
    var q := WithSongAdded(ps, playlistId, songId).value;
    var i := FindPlaylist(ps, playlistId).value;
    assert forall j :: 0 <= j < |q| ==> q[j].id == ps[j].id;
    assert FindPlaylist(q, playlistId) == Some(i);
    assert songId in q[i].songIds;
  }

  // ---------------------------------------------------------------------
  // removeSongFromPlaylist
  // ---------------------------------------------------------------------

  function OtherSong(songId: string): string -> bool
  {
    (id: string) => id != songId
  }

  /** The collection after dropping every occurrence of `songId` from the
      first playlist with id `playlistId`, defined by recursion over the
      list. Only that playlist changes; the removal is refused (`None`) when
      no playlist has the id. */
  function WithSongRemoved(ps: seq<Playlist>, playlistId: string, songId: string): (r: Option<seq<Playlist>>)
    ensures r ==
      match FindPlaylist(ps, playlistId)
      case None => None
      case Some(i) => Some(ps[i := ps[i].(songIds := Filter(ps[i].songIds, OtherSong(songId)))])
  {
    if ps == [] then None
    else if ps[0].id == playlistId then
      assert FindPlaylist(ps, playlistId) == Some(0);
      assert [ps[0].(songIds := Filter(ps[0].songIds, OtherSong(songId)))] + ps[1..]
          == ps[0 := ps[0].(songIds := Filter(ps[0].songIds, OtherSong(songId)))];
      Some([ps[0].(songIds := Filter(ps[0].songIds, OtherSong(songId)))] + ps[1..])
    else
      FindPlaylistPastHead(ps, playlistId);
      match WithSongRemoved(ps[1..], playlistId, songId)
      case None => None
      case Some(rest) =>
        var i := FindPlaylist(ps[1..], playlistId).value;
        assert [ps[0]] + ps[1..][i := ps[1..][i].(songIds := Filter(ps[1..][i].songIds, OtherSong(songId)))]
            == ps[i + 1 := ps[i + 1].(songIds := Filter(ps[i + 1].songIds, OtherSong(songId)))];
        Some([ps[0]] + rest)
  }

  /** After removal the playlist no longer lists the song, still lists every
      other song it listed, in the same order, and nothing new. */
  lemma RemoveSongDropsAllOccurrences(ids: seq<string>, songId: string)
    ensures songId !in Filter(ids, OtherSong(songId))
    ensures forall x :: x in Filter(ids, OtherSong(songId)) <==> x in ids && x != songId
    ensures IsSubsequence(Filter(ids, OtherSong(songId)), ids)
  {
    FilterMembers(ids, OtherSong(songId));
    FilterIsSubsequence(ids, OtherSong(songId));
  }

  /** Removing a song the playlist does not list leaves the collection as it was. */
  lemma RemoveAbsentSongIsNoOp(ps: seq<Playlist>, playlistId: string, songId: string)
    requires FindPlaylist(ps, playlistId).Some?
    requires songId !in ps[FindPlaylist(ps, playlistId).value].songIds
    ensures WithSongRemoved(ps, playlistId, songId) == Some(ps)
  {
    var i := FindPlaylist(ps, playlistId).value;
    FilterAll(ps[i].songIds, OtherSong(songId));
    assert ps[i := ps[i]] == ps;
  }

  /** Removing keeps every playlist free of duplicate songs. */
  lemma RemoveSongKeepsNoDup(ps: seq<Playlist>, playlistId: string, songId: string)
    ensures AllNoDup(ps) && WithSongRemoved(ps, playlistId, songId).Some? ==>
              AllNoDup(WithSongRemoved(ps, playlistId, songId).value)
  {
    var idx := FindPlaylist(ps, playlistId);
    if AllNoDup(ps) && idx.Some? {
      var i := idx.value;
      assert ps[i] in ps;
      FilterKeepsNoDup(ps[i].songIds, OtherSong(songId));
      var q := ps[i := ps[i].(songIds := Filter(ps[i].songIds, OtherSong(songId)))];
      forall p | p in q ensures NoDup(p.songIds) {
        var k :| 0 <= k < |q| && q[k] == p;
        if k != i {
          assert ps[k] in ps;
        }
      }
    }
  }

  // ---------------------------------------------------------------------
  // deletePlaylist
  // ---------------------------------------------------------------------

  function OtherPlaylist(playlistId: string): Playlist -> bool
  {
    (p: Playlist) => p.id != playlistId
  }

  /** Deleting keeps exactly the playlists whose id differs: every playlist
      with the id goes, the others stay in order; an unknown id changes
      nothing; the invariant is kept. */
  lemma DeletePlaylistEffect(ps: seq<Playlist>, playlistId: string)
    ensures forall p :: p in Filter(ps, OtherPlaylist(playlistId)) <==> p in ps && p.id != playlistId
    ensures IsSubsequence(Filter(ps, OtherPlaylist(playlistId)), ps)
    ensures FindPlaylist(ps, playlistId).None? ==> Filter(ps, OtherPlaylist(playlistId)) == ps
    ensures AllNoDup(ps) ==> AllNoDup(Filter(ps, OtherPlaylist(playlistId)))
  {
    FilterMembers(ps, OtherPlaylist(playlistId));
    FilterIsSubsequence(ps, OtherPlaylist(playlistId));
    if FindPlaylist(ps, playlistId).None? {
      FilterAll(ps, OtherPlaylist(playlistId));
    }
  }

  // ---------------------------------------------------------------------
  // getSongsFromPlaylist
  // ---------------------------------------------------------------------

  /** The catalog songs for `ids`, in order, skipping ids the catalog does
      not know. */
  function ResolveSongIds(songs: seq<Song>, ids: seq<string>): (r: seq<Song>)
    ensures |r| <= |ids|
  {
    if ids == [] then []
    else
      (match GetSongById(songs, ids[0]) case None => [] case Some(s) => [s])
      + ResolveSongIds(songs, ids[1..])
  }

  /** Resolving one more id appends its song, if it resolves. */
  lemma {:induction false} ResolveSongIdsSnoc(songs: seq<Song>, ids: seq<string>, id: string)
    ensures ResolveSongIds(songs, ids + [id]) ==
      ResolveSongIds(songs, ids) + (match GetSongById(songs, id) case None => [] case Some(s) => [s])
  {
    if ids == [] {
      assert [] + [id] == [id];
    } else {
      assert (ids + [id])[0] == ids[0];
      assert (ids + [id])[1..] == ids[1..] + [id];
      ResolveSongIdsSnoc(songs, ids[1..], id);
    }
  }

  /** Every song resolution yields is a catalog song listed by id; when
      every id resolves, position k holds the first catalog song with the
      k-th id. */
  lemma {:induction false} ResolveSongIdsEffect(songs: seq<Song>, ids: seq<string>)
    ensures forall s :: s in ResolveSongIds(songs, ids) ==> s in songs && s.id in ids
    ensures (forall k :: 0 <= k < |ids| ==> GetSongById(songs, ids[k]).Some?) ==>
              |ResolveSongIds(songs, ids)| == |ids| &&
              forall k :: 0 <= k < |ids| ==> ResolveSongIds(songs, ids)[k] == GetSongById(songs, ids[k]).value
  {
    if ids != [] {
      ResolveSongIdsEffect(songs, ids[1..]);
      assert forall x :: x in ids[1..] ==> x in ids;
      if forall k :: 0 <= k < |ids| ==> GetSongById(songs, ids[k]).Some? {
        assert forall k :: 0 <= k < |ids[1..]| ==> ids[1..][k] == ids[k + 1];
      }
    }
  }

  /** Every listed id the catalog knows contributes its song: only unknown
      ids are dropped. */
  lemma {:induction false} ResolveSongIdsKeepsKnown(songs: seq<Song>, ids: seq<string>)
    ensures forall id :: id in ids && GetSongById(songs, id).Some? ==>
              GetSongById(songs, id).value in ResolveSongIds(songs, ids)
  {
    if ids != [] {
      ResolveSongIdsKeepsKnown(songs, ids[1..]);
      forall id | id in ids && GetSongById(songs, id).Some?
        ensures GetSongById(songs, id).value in ResolveSongIds(songs, ids)
      {
        if id != ids[0] {
          assert id in ids[1..];
        }
      }
    }
  }

  /** `getSongsFromPlaylist`: nothing for an unknown playlist, otherwise the
      resolved songs of the first playlist with the id. */
  function PlaylistSongs(songs: seq<Song>, ps: seq<Playlist>, playlistId: string): (r: seq<Song>)
    ensures FindPlaylist(ps, playlistId).None? ==> r == []
    ensures FindPlaylist(ps, playlistId).Some? ==>
              |r| <= |ps[FindPlaylist(ps, playlistId).value].songIds|
  {
    match FindPlaylist(ps, playlistId)
    case None => []
    case Some(i) => ResolveSongIds(songs, ps[i].songIds)
  }
}
