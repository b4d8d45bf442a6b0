/** Read-only queries over the catalog: the id lookups and the song search
    (`getSongs`), a free-text filter followed by one filter per criterion. */
module CatalogQuery {
  import opened Wrappers
  import opened Types
  import opened Seqs
  import opened Text

  // ---------------------------------------------------------------------
  // Lookups by id (`find` over the fixed lists)
  // ---------------------------------------------------------------------

  /** `getArtistById`: the first artist with the given id, if any. */
  function GetArtistById(c: Catalog, id: string): (r: Option<Artist>)
    ensures r.None? <==> forall a :: a in c.artists ==> a.id != id
    ensures r.Some? ==> exists i :: 0 <= i < |c.artists| && c.artists[i] == r.value && r.value.id == id
                                    && forall j :: 0 <= j < i ==> c.artists[j].id != id
  {
    match FindFirst(c.artists, (a: Artist) => a.id == id)
    case None => None
    case Some(i) => Some(c.artists[i])
  }

  /** `getAlbumById`: the first album with the given id, if any. */
  function GetAlbumById(c: Catalog, id: string): (r: Option<Album>)
    ensures r.None? <==> forall a :: a in c.albums ==> a.id != id
    ensures r.Some? ==> exists i :: 0 <= i < |c.albums| && c.albums[i] == r.value && r.value.id == id
                                    && forall j :: 0 <= j < i ==> c.albums[j].id != id
  {
    match FindFirst(c.albums, (a: Album) => a.id == id)
    case None => None
    case Some(i) => Some(c.albums[i])
  }

  /** `getSongById`: the first song with the given id, if any. */
  function GetSongById(songs: seq<Song>, id: string): (r: Option<Song>)
    ensures r.None? <==> forall s :: s in songs ==> s.id != id
    ensures r.Some? ==> exists i :: 0 <= i < |songs| && songs[i] == r.value && r.value.id == id
                                    && forall j :: 0 <= j < i ==> songs[j].id != id
  {
    match FindFirst(songs, (s: Song) => s.id == id)
    case None => None
    case Some(i) => Some(songs[i])
  }

  // ---------------------------------------------------------------------
  // Truthiness of the optional inputs
  // ---------------------------------------------------------------------

  /** A string criterion or query is applied only when present and non-empty. */
  predicate IsSet(o: Option<string>)
  {
    o.Some? && o.value != ""
  }

  /** A tempo bound is applied only when present and non-zero. */
  predicate IsSetTempo(o: Option<int>)
  {
    o.Some? && o.value != 0
  }

  // ---------------------------------------------------------------------
  // The conditions each filter stage tests
  // ---------------------------------------------------------------------

  /** Free-text match against an already lower-cased query: title, a genre,
      an instrument, the name of a catalog artist credited on the song, or a mood. */
  predicate MatchesQuery(artists: seq<Artist>, s: Song, lowerQuery: string)
  {
    || Contains(ToLower(s.title), lowerQuery)
    || (exists g :: g in s.genres && Contains(ToLower(g), lowerQuery))
    || (exists inst :: inst in s.instrumentation && Contains(ToLower(inst), lowerQuery))
    || (exists a :: a in artists && a.id in s.artistIds && Contains(ToLower(a.name), lowerQuery))
    || (exists m :: m in s.moods && Contains(ToLower(MoodName(m)), lowerQuery))
  }

  predicate QueryOk(c: Catalog, query: Option<string>, s: Song)
  {
    IsSet(query) ==> MatchesQuery(c.artists, s, ToLower(query.value))
  }

  predicate GenreOk(fc: FilterCriteria, s: Song)
  {
    IsSet(fc.genre) ==> fc.genre.value in s.genres
  }

  predicate MoodOk(fc: FilterCriteria, s: Song)
  {
    fc.mood.Some? ==> fc.mood.value in s.moods
  }

  predicate MinTempoOk(fc: FilterCriteria, s: Song)
  {
    IsSetTempo(fc.minTempo) ==> s.audioFeatures.tempo >= fc.minTempo.value
  }

  predicate MaxTempoOk(fc: FilterCriteria, s: Song)
  {
    IsSetTempo(fc.maxTempo) ==> s.audioFeatures.tempo <= fc.maxTempo.value
  }

  predicate KeyOk(fc: FilterCriteria, s: Song)
  {
    fc.key.Some? ==> s.audioFeatures.key == fc.key.value
  }

  predicate InstrumentOk(fc: FilterCriteria, s: Song)
  {
    IsSet(fc.instrument) ==> fc.instrument.value in s.instrumentation
  }

  /** The whole query as one conjunction: the song is returned by `getSongs`
      exactly when this holds. */
  predicate Selected(c: Catalog, criteria: Option<FilterCriteria>, query: Option<string>, s: Song)
  {
    && QueryOk(c, query, s)
    && (criteria.Some? ==>
          var fc := criteria.value;
          GenreOk(fc, s) && MoodOk(fc, s) && MinTempoOk(fc, s) && MaxTempoOk(fc, s)
          && KeyOk(fc, s) && InstrumentOk(fc, s))
  }

  function SelectedPred(c: Catalog, criteria: Option<FilterCriteria>, query: Option<string>): Song -> bool
  {
    (s: Song) => Selected(c, criteria, query, s)
  }

  // ---------------------------------------------------------------------
  // The filter pipeline of `getSongs`
  // ---------------------------------------------------------------------

  function QueryPred(artists: seq<Artist>, lowerQuery: string): Song -> bool
  {
    (s: Song) => MatchesQuery(artists, s, lowerQuery)
  }

  function QueryStage(c: Catalog, query: Option<string>, songs: seq<Song>): seq<Song>
  {
    if IsSet(query) then Filter(songs, QueryPred(c.artists, ToLower(query.value))) else songs
  }

  function GenrePred(genre: string): Song -> bool
  {
    (s: Song) => genre in s.genres
  }

  function MoodPred(mood: Mood): Song -> bool
  {
    (s: Song) => mood in s.moods
  }

  function MinTempoPred(minTempo: int): Song -> bool
  {
    (s: Song) => s.audioFeatures.tempo >= minTempo
  }

  function MaxTempoPred(maxTempo: int): Song -> bool
  {
    (s: Song) => s.audioFeatures.tempo <= maxTempo
  }

  function KeyPred(key: KeySignature): Song -> bool
  {
    (s: Song) => s.audioFeatures.key == key
  }

  function InstrumentPred(instrument: string): Song -> bool
  {
    (s: Song) => instrument in s.instrumentation
  }

  function GenreStage(fc: FilterCriteria, songs: seq<Song>): seq<Song>
  {
    if IsSet(fc.genre) then Filter(songs, GenrePred(fc.genre.value)) else songs
  }

  function MoodStage(fc: FilterCriteria, songs: seq<Song>): seq<Song>
  {
    if fc.mood.Some? then Filter(songs, MoodPred(fc.mood.value)) else songs
  }

  function MinTempoStage(fc: FilterCriteria, songs: seq<Song>): seq<Song>
  {
    if IsSetTempo(fc.minTempo) then Filter(songs, MinTempoPred(fc.minTempo.value)) else songs
  }

  function MaxTempoStage(fc: FilterCriteria, songs: seq<Song>): seq<Song>
  {
    if IsSetTempo(fc.maxTempo) then Filter(songs, MaxTempoPred(fc.maxTempo.value)) else songs
  }

  function KeyStage(fc: FilterCriteria, songs: seq<Song>): seq<Song>
  {
    if fc.key.Some? then Filter(songs, KeyPred(fc.key.value)) else songs
  }

  function InstrumentStage(fc: FilterCriteria, songs: seq<Song>): seq<Song>
  {
    if IsSet(fc.instrument) then Filter(songs, InstrumentPred(fc.instrument.value)) else songs
  }

  /** `getSongs(filterCriteria, searchQuery)`. */
  function GetSongs(c: Catalog, criteria: Option<FilterCriteria>, query: Option<string>): (r: seq<Song>)
    ensures |r| <= |c.songs|
  {
    var songs := QueryStage(c, query, c.songs);
    match criteria
    case None => songs
    case Some(fc) =>
      InstrumentStage(fc, KeyStage(fc, MaxTempoStage(fc, MinTempoStage(fc, MoodStage(fc, GenreStage(fc, songs))))))
  }

  // ---------------------------------------------------------------------
  // The pipeline is one filter by the conjunction
  // ---------------------------------------------------------------------

  lemma QueryStageFilters(c: Catalog, query: Option<string>, s: seq<Song>, p: Song -> bool, pq: Song -> bool)
    requires forall x :: pq(x) == (p(x) && QueryOk(c, query, x))
    ensures QueryStage(c, query, Filter(s, p)) == Filter(s, pq)
  {
    if IsSet(query) {
      FilterThen(s, p, QueryPred(c.artists, ToLower(query.value)), pq);
    } else {
      FilterExt(s, p, pq);
    }
  }

  lemma GenreStageFilters(fc: FilterCriteria, s: seq<Song>, p: Song -> bool, pq: Song -> bool)
    requires forall x :: pq(x) == (p(x) && GenreOk(fc, x))
    ensures GenreStage(fc, Filter(s, p)) == Filter(s, pq)
  {
    if IsSet(fc.genre) {
      FilterThen(s, p, GenrePred(fc.genre.value), pq);
    } else {
      FilterExt(s, p, pq);
    }
  }

  lemma MoodStageFilters(fc: FilterCriteria, s: seq<Song>, p: Song -> bool, pq: Song -> bool)
    requires forall x :: pq(x) == (p(x) && MoodOk(fc, x))
    ensures MoodStage(fc, Filter(s, p)) == Filter(s, pq)
  {
    if fc.mood.Some? {
      FilterThen(s, p, MoodPred(fc.mood.value), pq);
    } else {
      FilterExt(s, p, pq);
    }
  }

  lemma MinTempoStageFilters(fc: FilterCriteria, s: seq<Song>, p: Song -> bool, pq: Song -> bool)
    requires forall x :: pq(x) == (p(x) && MinTempoOk(fc, x))
    ensures MinTempoStage(fc, Filter(s, p)) == Filter(s, pq)
  {
    if IsSetTempo(fc.minTempo) {
      FilterThen(s, p, MinTempoPred(fc.minTempo.value), pq);
    } else {
      FilterExt(s, p, pq);
    }
  }

  lemma MaxTempoStageFilters(fc: FilterCriteria, s: seq<Song>, p: Song -> bool, pq: Song -> bool)
    requires forall x :: pq(x) == (p(x) && MaxTempoOk(fc, x))
    ensures MaxTempoStage(fc, Filter(s, p)) == Filter(s, pq)
  {
    if IsSetTempo(fc.maxTempo) {
      FilterThen(s, p, MaxTempoPred(fc.maxTempo.value), pq);
    } else {
      FilterExt(s, p, pq);
    }
  }

  lemma KeyStageFilters(fc: FilterCriteria, s: seq<Song>, p: Song -> bool, pq: Song -> bool)
    requires forall x :: pq(x) == (p(x) && KeyOk(fc, x))
    ensures KeyStage(fc, Filter(s, p)) == Filter(s, pq)
  {
    if fc.key.Some? {
      FilterThen(s, p, KeyPred(fc.key.value), pq);
    } else {
      FilterExt(s, p, pq);
    }
  }

  lemma InstrumentStageFilters(fc: FilterCriteria, s: seq<Song>, p: Song -> bool, pq: Song -> bool)
    requires forall x :: pq(x) == (p(x) && InstrumentOk(fc, x))
    ensures InstrumentStage(fc, Filter(s, p)) == Filter(s, pq)
  {
    if IsSet(fc.instrument) {
      FilterThen(s, p, InstrumentPred(fc.instrument.value), pq);
    } else {
      FilterExt(s, p, pq);
    }
  }

  /** `getSongs` returns exactly the catalog songs that satisfy the whole
      query, in catalog order. */
  lemma GetSongsSelects(c: Catalog, criteria: Option<FilterCriteria>, query: Option<string>)
    ensures GetSongs(c, criteria, query) == Filter(c.songs, SelectedPred(c, criteria, query))
  {
    var s := c.songs;
    var p0 := (x: Song) => true;
    var p1 := (x: Song) => QueryOk(c, query, x);
    FilterAll(s, p0);
    QueryStageFilters(c, query, s, p0, p1);
    match criteria {
      case None =>
        FilterExt(s, p1, SelectedPred(c, criteria, query));
      case Some(fc) =>
        var p2 := (x: Song) => p1(x) && GenreOk(fc, x);
        var p3 := (x: Song) => p2(x) && MoodOk(fc, x);
        var p4 := (x: Song) => p3(x) && MinTempoOk(fc, x);
        var p5 := (x: Song) => p4(x) && MaxTempoOk(fc, x);
        var p6 := (x: Song) => p5(x) && KeyOk(fc, x);
        var p7 := (x: Song) => p6(x) && InstrumentOk(fc, x);
        GenreStageFilters(fc, s, p1, p2);
        MoodStageFilters(fc, s, p2, p3);
        MinTempoStageFilters(fc, s, p3, p4);
        MaxTempoStageFilters(fc, s, p4, p5);
        KeyStageFilters(fc, s, p5, p6);
        InstrumentStageFilters(fc, s, p6, p7);
        FilterExt(s, p7, SelectedPred(c, criteria, query));
    }
  }

  // ---------------------------------------------------------------------
  // What `getSongs` promises
  // ---------------------------------------------------------------------

  /** The result only narrows the catalog: it is a sub-list in catalog order,
      and a song is in it exactly when it is in the catalog and satisfies
      the whole query. */
  lemma GetSongsNarrows(c: Catalog, criteria: Option<FilterCriteria>, query: Option<string>)
    ensures |GetSongs(c, criteria, query)| <= |c.songs|
    ensures IsSubsequence(GetSongs(c, criteria, query), c.songs)
    ensures forall s :: s in GetSongs(c, criteria, query) <==> s in c.songs && Selected(c, criteria, query, s)
  {
    GetSongsSelects(c, criteria, query);
    FilterMembers(c.songs, SelectedPred(c, criteria, query));
    FilterIsSubsequence(c.songs, SelectedPred(c, criteria, query));
  }

  /** With a non-empty query, every returned song matches the lower-cased
      query in its title, a genre, an instrument, a credited artist's name
      or a mood; and every catalog song that matches and meets the criteria
      is returned. */
  lemma SearchMatchesText(c: Catalog, criteria: Option<FilterCriteria>, q: string)
    requires q != ""
    ensures forall s :: s in GetSongs(c, criteria, Some(q)) ==> MatchesQuery(c.artists, s, ToLower(q))
    ensures forall s ::
              (s in c.songs && MatchesQuery(c.artists, s, ToLower(q)) && Selected(c, criteria, None, s))
              ==> s in GetSongs(c, criteria, Some(q))
  {
    GetSongsNarrows(c, criteria, Some(q));
  }

  /** Each criterion that is set holds of every returned song. */
  lemma CriteriaHoldOfResults(c: Catalog, fc: FilterCriteria, query: Option<string>, s: Song)
    requires s in GetSongs(c, Some(fc), query)
    ensures IsSet(fc.genre) ==> fc.genre.value in s.genres
    ensures fc.mood.Some? ==> fc.mood.value in s.moods
    ensures IsSetTempo(fc.minTempo) ==> s.audioFeatures.tempo >= fc.minTempo.value
    ensures IsSetTempo(fc.maxTempo) ==> s.audioFeatures.tempo <= fc.maxTempo.value
    ensures fc.key.Some? ==> s.audioFeatures.key == fc.key.value
    ensures IsSet(fc.instrument) ==> fc.instrument.value in s.instrumentation
  {
    GetSongsNarrows(c, Some(fc), query);
  }

  /** No criterion is set (absent fields, empty strings, zero tempo bounds). */
  predicate NothingSet(fc: FilterCriteria)
  {
    !IsSet(fc.genre) && fc.mood.None? && !IsSetTempo(fc.minTempo) && !IsSetTempo(fc.maxTempo)
    && fc.key.None? && !IsSet(fc.instrument)
  }

  /** Without criteria and with an empty or absent query the whole catalog
      comes back, in order. */
  lemma GetSongsUnfiltered(c: Catalog, criteria: Option<FilterCriteria>, query: Option<string>)
    requires query.None? || query == Some("")
    requires criteria.None? || NothingSet(criteria.value)
    ensures GetSongs(c, criteria, query) == c.songs
  {
    GetSongsSelects(c, criteria, query);
    FilterAll(c.songs, SelectedPred(c, criteria, query));
  }

  /** A minimum tempo above the maximum tempo (both set) selects nothing. */
  lemma InvertedTempoRangeIsEmpty(c: Catalog, fc: FilterCriteria, query: Option<string>)
    requires IsSetTempo(fc.minTempo) && IsSetTempo(fc.maxTempo)
    requires fc.minTempo.value > fc.maxTempo.value
    ensures GetSongs(c, Some(fc), query) == []
  {
    GetSongsSelects(c, Some(fc), query);
    FilterNone(c.songs, SelectedPred(c, Some(fc), query));
  }

  /** The query is case-insensitive: lower-casing it first changes nothing. */
  lemma {:induction false} QueryIsCaseInsensitive(c: Catalog, criteria: Option<FilterCriteria>, q: string)
    ensures GetSongs(c, criteria, Some(q)) == GetSongs(c, criteria, Some(ToLower(q)))
  {
    ToLowerIdempotent(q);
    GetSongsSelects(c, criteria, Some(q));
    GetSongsSelects(c, criteria, Some(ToLower(q)));
    FilterExt(c.songs, SelectedPred(c, criteria, Some(q)), SelectedPred(c, criteria, Some(ToLower(q))));
  }
}
