/** The entities of the music catalog and the user's playlists. */
module Types {
  import opened Wrappers

  datatype Mood = Happy | Sad | Energetic | Calm | Romantic | Melancholic
                | Uplifting | Dark | Chill | Experimental

  /** The string value each mood enum member carries; free-text search
      matches against it. */
  function MoodName(m: Mood): (r: string)
    ensures r != []
  {
    match m
    case Happy => "Happy"
    case Sad => "Sad"
    case Energetic => "Energetic"
    case Calm => "Calm"
    case Romantic => "Romantic"
    case Melancholic => "Melancholic"
    case Uplifting => "Uplifting"
    case Dark => "Dark"
    case Chill => "Chill"
    case Experimental => "Experimental"
  }

  datatype KeySignature = CMajor | AMinor | GMajor | EMinor | DMajor | BMinor | FMajor | DMinor

  datatype Mode = Major | Minor

  /** Audio features. The unit-interval measures (energy, danceability,
      valence, acousticness, instrumentalness) are floating point and read
      by no query, so only tempo, key and mode are kept. Tempo is a whole
      number of beats per minute. */
  datatype AudioFeatures = AudioFeatures(tempo: int, key: KeySignature, mode: Mode)

  datatype MusicTheory = MusicTheory(chordProgressions: seq<string>, scalesUsed: seq<string>)

  datatype Artist = Artist(id: string, name: string)

  datatype Album = Album(id: string, title: string, artistIds: seq<string>, releaseYear: int,
                         coverArtUrl: Option<string>)

  datatype Song = Song(
    id: string,
    title: string,
    artistIds: seq<string>,
    albumId: string,
    durationSeconds: nat,
    genres: seq<string>,
    moods: seq<Mood>,
    audioFeatures: AudioFeatures,
    instrumentation: seq<string>,
    musicTheory: MusicTheory,
    coverArtUrl: Option<string>)

  datatype Playlist = Playlist(id: string, name: string, songIds: seq<string>, description: Option<string>)

  /** Structured query; every field is optional. */
  datatype FilterCriteria = FilterCriteria(
    genre: Option<string>,
    mood: Option<Mood>,
    minTempo: Option<int>,
    maxTempo: Option<int>,
    key: Option<KeySignature>,
    instrument: Option<string>)

  /** The fixed reference data the catalog queries range over. */
  datatype Catalog = Catalog(artists: seq<Artist>, albums: seq<Album>, songs: seq<Song>)
}
