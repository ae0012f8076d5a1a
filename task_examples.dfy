/** Worked instances of the extractors of `task/scraper.js` on concrete text. */
module TaskExamples {
  import opened Common
  import opened Text
  import opened TaskScraper

  /** The global year scan resumes after each match: in "202029" the later "2029" is never seen. */
  lemma YearScanDoesNotOverlap()
    ensures YearAt("202029", 2) && YearValue("202029", 2) == 2029
    ensures ExtractYear("202029") == Some(2020)
  {
    assert ScanYears("202029", 4) == [];
    assert ScanYears("202029", 0) == [2020];
  }

  /** Of several years the greatest wins, not the first. */
  lemma LatestYearWins()
    ensures ExtractYear("2019 2022") == Some(2022)
  {
    var s := "2019 2022";
    assert ScanYears(s, 9) == [];
    assert ScanYears(s, 5) == [2022];
    assert ScanYears(s, 4) == [2022];
    assert ScanYears(s, 0) == [2019, 2022];
  }

  /** No word boundaries: digits inside a longer number still count. */
  lemma EmbeddedDigitsCount()
    ensures ExtractYear("120219") == Some(2021)
  {
    var s := "120219";
    assert ScanYears(s, 5) == [];
    assert ScanYears(s, 1) == [2021];
    assert ScanYears(s, 0) == [2021];
  }

  /** Priority order breaks ties: a strategic-partnership match wins over every later pattern. */
  lemma StrategicPartnershipFirst(content: string)
    requires PatternMatches(content, RelationPatterns[0])
    ensures FindRelationshipType(content) == "strategic partnership"
  {
  }

  /** Text naming both a strategic partnership and a service provider is labelled by the earlier pattern. */
  lemma StrategicBeatsServiceProvider()
    ensures PatternMatches("strategic\t " + "partner, " + "service " + "provider", RelationPatterns[2])
    ensures FindRelationshipType("strategic\t " + "partner, " + "service " + "provider") == "strategic partnership"
  {
    var head := "strategic\t ";
    var first := head + "partner, ";
    var second := first + "service ";
    var content := second + "provider";
    assert |head| == 11 && |first| == 20 && |second| == 28 && |content| == 36;
    LowerKeepsLowerCase(content);
    assert content[0..9] == "strategic" && content[11..18] == "partner";
    assert AllSpace(content, 9, 11) && MatchesAt(content, "partner", 11);
    assert PhraseAt(content, "strategic", "partner", 0);
    assert content[20..27] == "service" && content[28..36] == "provider";
    assert AllSpace(content, 27, 28) && MatchesAt(content, "provider", 28);
    assert PhraseAt(content, "service", "provider", 20);
  }

  /**
   * Confidence reads snippet and title joined with no space, so a name split
   * across the two still counts.
   */
  lemma ConfidenceJoinsWithoutSpace()
    ensures DetermineConfidence(
      RawResult(title := Some("pro bt contract"), snippet := Some("wi"), link := None, publishedDate := None),
      "wipro", "bt") == High
  {
    var r := RawResult(title := Some("pro bt contract"), snippet := Some("wi"), link := None, publishedDate := None);
    var content := "wipro bt contract";
    assert ConfidenceText(r) == content;
    LowerKeepsLowerCase(content);
    LowerKeepsLowerCase("wipro");
    LowerKeepsLowerCase("bt");
    LowerKeepsLowerCase(PartnershipIndicators[3]);
    assert MatchesAt(content, "wipro", 0);
    assert MatchesAt(content, "bt", 6);
    assert MatchesAt(content, "contract", 9);
  }
}
