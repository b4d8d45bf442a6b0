/** The fixed catalog the service answers queries from. */
module MockData {
  import opened Wrappers
  import opened Types

  const MockArtists: seq<Artist> := [
    Artist("artist1", "The Midnight Moondrops"),
    Artist("artist2", "Echoes of Andromeda"),
    Artist("artist3", "Solaris Synthetica"),
    Artist("artist4", "Nina Simone"),
    Artist("artist5", "Miles Davis")
  ]

  const MockAlbums: seq<Album> := [
    Album("album1", "Lunar Rhythms", ["artist1"], 2022, Some("https://picsum.photos/seed/album1/300/300")),
    Album("album2", "Cosmic Harmonies", ["artist2"], 2023, Some("https://picsum.photos/seed/album2/300/300")),
    Album("album3", "Digital Dreams", ["artist3"], 2021, Some("https://picsum.photos/seed/album3/300/300")),
    Album("album4", "I Put a Spell on You", ["artist4"], 1965, Some("https://picsum.photos/seed/album4/300/300")),
    Album("album5", "Kind of Blue", ["artist5"], 1959, Some("https://picsum.photos/seed/album5/300/300"))
  ]

  const NeonInterlude := Song(
    "song1", "Neon Interlude", ["artist1"], "album1", 245,
    ["Jazz", "Electronic", "Chill"],
    [Calm, Melancholic, Chill],
    AudioFeatures(90, AMinor, Minor),
    ["Piano", "Synthesizer", "Drums", "Saxophone"],
    MusicTheory(["Am7 - Dm7 - G7 - Cmaj7", "ii-V-I in A minor"], ["A Minor Pentatonic", "Dorian Mode"]),
    Some("https://picsum.photos/seed/song1/300/300"))

  const StarlightSerenade := Song(
    "song2", "Starlight Serenade", ["artist2"], "album2", 320,
    ["Ambient", "Classical", "Electronic"],
    [Calm, Uplifting, Experimental],
    AudioFeatures(110, CMajor, Major),
    ["Strings", "Synthesizer Pad", "Piano"],
    MusicTheory(["Cmaj7 - Fmaj7 - Gsus - G", "I-IV-V progression"], ["C Major Scale", "Lydian Mode"]),
    Some("https://picsum.photos/seed/song2/300/300"))

  const CyberneticPulse := Song(
    "song3", "Cybernetic Pulse", ["artist3"], "album3", 180,
    ["Electronic", "Hip Hop", "Experimental"],
    [Energetic, Dark],
    AudioFeatures(140, DMinor, Minor),
    ["Synthesizer", "Drum Machine", "Bass Synth"],
    MusicTheory(["Dm - Bb - C - A", "i-VI-VII-V in D minor"], ["D Harmonic Minor"]),
    Some("https://picsum.photos/seed/song3/300/300"))

  const FeelingGood := Song(
    "song4", "Feeling Good", ["artist4"], "album4", 177,
    ["Jazz", "Blues", "Soul"],
    [Uplifting, Energetic],
    AudioFeatures(80, GMajor, Major),
    ["Vocals", "Piano", "Bass", "Drums", "Horns"],
    MusicTheory(["Gm - Ebmaj7 - Cm7 - D7", "Standard Blues Changes"], ["G Blues Scale"]),
    Some("https://picsum.photos/seed/album4/300/300"))

  const SoWhat := Song(
    "song5", "So What", ["artist5"], "album5", 562,
    ["Jazz", "Modal Jazz"],
    [Chill, Melancholic],
    AudioFeatures(136, DMinor, Minor),
    ["Trumpet", "Saxophone", "Piano", "Bass", "Drums"],
    MusicTheory(["Dm7 (16 bars) - Ebm7 (8 bars) - Dm7 (8 bars)"], ["D Dorian", "Eb Dorian"]),
    Some("https://picsum.photos/seed/album5/300/300"))

  const MockSongs: seq<Song> := [NeonInterlude, StarlightSerenade, CyberneticPulse, FeelingGood, SoWhat]

  const MockCatalog := Catalog(MockArtists, MockAlbums, MockSongs)
}
