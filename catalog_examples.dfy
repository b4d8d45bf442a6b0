/** The catalog queries evaluated on the fixed catalog. */
module CatalogExamples {
  import opened Wrappers
  import opened Types
  import opened Seqs
  import opened Text
  import opened MockData
  import opened CatalogQuery

  /** A tempo range of 100 to 140 BPM keeps the songs at 110, 140 and 136
      BPM and drops those at 90 and 80, in catalog order. */
  lemma TempoRangeExample()
    ensures GetSongs(MockCatalog, Some(FilterCriteria(None, None, Some(100), Some(140), None, None)), None)
            == [StarlightSerenade, CyberneticPulse, SoWhat]
  {
    var min := MinTempoPred(100);
    assert Filter(MockSongs, min) == [StarlightSerenade, CyberneticPulse, SoWhat] by {
      FilterCons(SoWhat, [], min);
      FilterCons(FeelingGood, [SoWhat], min);
      FilterCons(CyberneticPulse, [FeelingGood, SoWhat], min);
      FilterCons(StarlightSerenade, [CyberneticPulse, FeelingGood, SoWhat], min);
      FilterCons(NeonInterlude, [StarlightSerenade, CyberneticPulse, FeelingGood, SoWhat], min);
    }
    FilterAll([StarlightSerenade, CyberneticPulse, SoWhat], MaxTempoPred(140));
  }

  /** A search for "jazz" returns every catalog song listing the genre
      "Jazz", whatever else the catalog holds. */
  lemma JazzSearchFindsJazzGenre(c: Catalog)
    ensures forall s :: s in c.songs && "Jazz" in s.genres ==> s in GetSongs(c, None, Some("jazz"))
  {
    assert ToLower("jazz") == "jazz";
    assert ToLower("Jazz") == "jazz" && Contains("jazz", "jazz");
    GetSongsNarrows(c, None, Some("jazz"));
    forall s | s in c.songs && "Jazz" in s.genres
      ensures Selected(c, None, Some("jazz"), s)
    {
      assert MatchesQuery(c.artists, s, "jazz");
    }
  }

  /** On the fixed catalog that search returns "Neon Interlude", "Feeling
      Good" and "So What". */
  lemma JazzSearchExample()
    ensures NeonInterlude in GetSongs(MockCatalog, None, Some("jazz"))
    ensures FeelingGood in GetSongs(MockCatalog, None, Some("jazz"))
    ensures SoWhat in GetSongs(MockCatalog, None, Some("jazz"))
  {
    JazzSearchFindsJazzGenre(MockCatalog);
    assert "Jazz" in NeonInterlude.genres && "Jazz" in FeelingGood.genres && "Jazz" in SoWhat.genres;
  }
}
