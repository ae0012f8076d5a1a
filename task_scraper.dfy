/**
 * The signal extractors of `task/scraper.js` and the mapping from one organic
 * search result to one finding. Every extractor is a pure function of the
 * result's text; the HTTP call and the date parser are parameters.
 */
module TaskScraper {
  import opened Common
  import opened Text

  /** The three confidence levels a finding can carry. */
  datatype Confidence = High | Medium | Low

  /** One organic search result as the provider returns it; every field may be missing. */
  datatype RawResult = RawResult(
    title: Option<string>,
    snippet: Option<string>,
    link: Option<string>,
    publishedDate: Option<string>)

  /** A finding's `year`: the number found in the text, or the string the publication-date fallback gives. */
  datatype Year = YearNumber(value: nat) | YearString(text: string)

  datatype Finding = Finding(
    title: string,
    snippet: string,
    link: string,
    confidence: Confidence,
    year: Year,
    technologies: seq<string>,
    relationship: string,
    publishedDate: Option<string>)

  /**
   * What the search provider call produced: it threw (network error, bad
   * status, malformed body), or it answered with a body whose
   * `organic_results` may be missing.
   */
  datatype SearchResponse = Failed | Answered(organicResults: Option<seq<RawResult>>)

  // ---------------------------------------------------------------------------
  // determineConfidence
  // ---------------------------------------------------------------------------

  /** The alternatives of `/partnership|collaboration|agreement|contract|case study/i`. */
  const PartnershipIndicators: seq<string> :=
    ["partnership", "collaboration", "agreement", "contract", "case study"]

  predicate HasIndicator(text: string)
  {
    exists k | 0 <= k < |PartnershipIndicators| :: IncludesIgnoringCase(text, PartnershipIndicators[k])
  }

  /** The text confidence is judged on: snippet then title, joined with NO separator. */
  function ConfidenceText(r: RawResult): (text: string)
  {
    OrElse(r.snippet, "") + OrElse(r.title, "")
  }

  /** Both names occur, case-insensitively, in the confidence text. */
  predicate MentionsBoth(r: RawResult, competitorName: string, targetCompany: string)
  {
    IncludesIgnoringCase(ConfidenceText(r), competitorName)
    && IncludesIgnoringCase(ConfidenceText(r), targetCompany)
  }

  /** Sorts a result into exactly one of the three confidence levels. */
  function DetermineConfidence(r: RawResult, competitorName: string, targetCompany: string): (c: Confidence)
    ensures c == High <==> MentionsBoth(r, competitorName, targetCompany) && HasIndicator(ConfidenceText(r))
    ensures c == Medium <==> MentionsBoth(r, competitorName, targetCompany) && !HasIndicator(ConfidenceText(r))
    ensures c == Low <==> !MentionsBoth(r, competitorName, targetCompany)
  {
    var content := ConfidenceText(r);
    var hasCompetitor := IncludesIgnoringCase(content, competitorName);
    var hasTarget := IncludesIgnoringCase(content, targetCompany);
    var hasPartnership := HasIndicator(content);
    if hasCompetitor && hasTarget && hasPartnership then High
    else if hasCompetitor && hasTarget then Medium
    else Low
  }

  // ---------------------------------------------------------------------------
  // findRelationshipType
  // ---------------------------------------------------------------------------

  /**
   * A pattern `/first\s+second/i` and the name it yields. The optional
   * `(ship)?` after `strategic\s+partner` never changes whether `test`
   * succeeds, so it is not part of the pattern.
   */
  datatype RelationPattern = RelationPattern(name: string, first: string, second: string)

  /** The patterns in the order the source tries them. */
  const RelationPatterns: seq<RelationPattern> := [
    RelationPattern("strategic partnership", "strategic", "partner"),
    RelationPattern("implementation partner", "implementation", "partner"),
    RelationPattern("service provider", "service", "provider"),
    RelationPattern("technology partner", "technology", "partner"),
    RelationPattern("consulting partner", "consulting", "partner"),
    RelationPattern("system integrator", "system", "integrator")
  ]

  const UnknownRelationship := "Unknown"
  const DefaultRelationship := "Business Relationship"

  predicate PatternMatches(content: string, p: RelationPattern)
  {
    PhraseIn(Lower(content), p.first, p.second)
  }

  /** The first pattern at or after `from` that matches, with early return. */
  function FirstMatchingPattern(content: string, from: nat): (k: Option<nat>)
    decreases |RelationPatterns| - from
    ensures k.Some? ==>
      (from <= k.value < |RelationPatterns|
       && PatternMatches(content, RelationPatterns[k.value])
       && forall j | from <= j < k.value :: !PatternMatches(content, RelationPatterns[j]))
    ensures k.None? ==> forall j | from <= j < |RelationPatterns| :: !PatternMatches(content, RelationPatterns[j])
  {
    if from >= |RelationPatterns| then None
    else if PatternMatches(content, RelationPatterns[from]) then Some(from)
    else FirstMatchingPattern(content, from + 1)
  }

  /** The label of the first matching pattern, the default label when none matches, "Unknown" for no text. */
  function FindRelationshipType(content: string): (r: string)
    ensures r == UnknownRelationship <==> content == ""
    ensures r == DefaultRelationship <==>
      content != "" && forall k | 0 <= k < |RelationPatterns| :: !PatternMatches(content, RelationPatterns[k])
    ensures content != "" && r != DefaultRelationship ==>
      exists k | 0 <= k < |RelationPatterns| ::
        r == RelationPatterns[k].name
        && PatternMatches(content, RelationPatterns[k])
        && forall j | 0 <= j < k :: !PatternMatches(content, RelationPatterns[j])
  {
    if content == "" then UnknownRelationship
    else match FirstMatchingPattern(content, 0)
      case Some(k) => RelationPatterns[k].name
      case None => DefaultRelationship
  }

  // ---------------------------------------------------------------------------
  // extractYear
  // ---------------------------------------------------------------------------

  /** `/20[0-2][0-9]/` matches at index `i`. */
  predicate YearAt(s: string, i: int)
  {
    0 <= i && i + 4 <= |s| && s[i] == '2' && s[i + 1] == '0'
    && '0' <= s[i + 2] <= '2' && IsDigit(s[i + 3])
  }

  /** The number the four matched characters spell. */
  function YearValue(s: string, i: int): (y: nat)
    requires YearAt(s, i)
    ensures 2000 <= y <= 2029
  {
    2000 + 10 * (s[i + 2] as int - '0' as int) + (s[i + 3] as int - '0' as int)
  }

  /**
   * `s.match(/(20[0-2][0-9])/g)` from index `from`: left to right, and after
   * a match the scan resumes behind it, so matches never overlap.
   */
  function ScanYears(s: string, from: nat): (ys: seq<nat>)
    decreases |s| - from
    ensures forall y | y in ys :: exists j | from <= j <= |s| - 4 :: YearAt(s, j) && YearValue(s, j) == y
    ensures ys == [] <==> forall j | from <= j <= |s| - 4 :: !YearAt(s, j)
  {
    if from + 4 > |s| then []
    else if YearAt(s, from) then [YearValue(s, from)] + ScanYears(s, from + 4)
    else ScanYears(s, from + 1)
  }

  /** `Math.max(...xs)` of a non-empty list. */
  function MaxOf(xs: seq<nat>): (m: nat)
    requires xs != []
    ensures m in xs && forall x | x in xs :: x <= m
  {
    if |xs| == 1 then xs[0]
    else
      var rest := MaxOf(xs[1..]);
      assert xs == [xs[0]] + xs[1..];
      if xs[0] >= rest then xs[0] else rest
  }

  /** The greatest year the global scan finds, or nothing (`null`). */
  function ExtractYear(content: string): (y: Option<nat>)
    ensures y.None? <==> forall j | 0 <= j <= |content| - 4 :: !YearAt(content, j)
    ensures y.Some? ==> 2000 <= y.value <= 2029
    ensures y.Some? ==> exists j | 0 <= j <= |content| - 4 :: YearAt(content, j) && YearValue(content, j) == y.value
    ensures y.Some? ==> y.value in ScanYears(content, 0)
    ensures y.Some? ==> forall m | m in ScanYears(content, 0) :: m <= y.value
  {
    if content == "" then None
    else
      var years := ScanYears(content, 0);
      if years == [] then None else Some(MaxOf(years))
  }

  // ---------------------------------------------------------------------------
  // extractTechnologies
  // ---------------------------------------------------------------------------

  /** The technology vocabulary, in the order the source lists it. */
  const TechKeywords: seq<string> := [
    "AWS", "Azure", "Cloud", "AI", "ML", "Blockchain",
    "DevOps", "5G", "IoT", "Analytics", "Digital Transformation"
  ]

  /** `xs` is `ys` with some elements dropped, in the same order. */
  predicate IsSubsequence<T(==)>(xs: seq<T>, ys: seq<T>)
    decreases |ys|
  {
    xs == [] || (ys != [] && ((xs[0] == ys[0] && IsSubsequence(xs[1..], ys[1..])) || IsSubsequence(xs, ys[1..])))
  }

  predicate NoDuplicates<T(==)>(xs: seq<T>)
  {
    forall i, j | 0 <= i < j < |xs| :: xs[i] != xs[j]
  }

  lemma {:induction false} SubsequenceElements<T>(xs: seq<T>, ys: seq<T>)
    requires IsSubsequence(xs, ys)
    ensures forall x | x in xs :: x in ys
    decreases |ys|
  {
    if xs != [] {
      if xs[0] == ys[0] && IsSubsequence(xs[1..], ys[1..]) {
        SubsequenceElements(xs[1..], ys[1..]);
        forall x | x in xs ensures x in ys {
          if x != xs[0] { assert x in xs[1..]; }
        }
      } else {
        SubsequenceElements(xs, ys[1..]);
      }
    }
  }

  /** A subsequence of a duplicate-free list is duplicate-free. */
  lemma {:induction false} SubsequenceKeepsDistinct<T>(xs: seq<T>, ys: seq<T>)
    requires IsSubsequence(xs, ys) && NoDuplicates(ys)
    ensures NoDuplicates(xs)
    decreases |ys|
  {
    if xs != [] {
      assert NoDuplicates(ys[1..]) by {
        forall i, j | 0 <= i < j < |ys[1..]| ensures ys[1..][i] != ys[1..][j] {
          assert ys[1..][i] == ys[i + 1] && ys[1..][j] == ys[j + 1];
        }
      }
      if xs[0] == ys[0] && IsSubsequence(xs[1..], ys[1..]) {
        SubsequenceKeepsDistinct(xs[1..], ys[1..]);
        SubsequenceElements(xs[1..], ys[1..]);
        assert ys[0] !in ys[1..] by {
          forall k | 0 <= k < |ys[1..]| ensures ys[1..][k] != ys[0] {
            assert ys[1..][k] == ys[k + 1];
          }
        }
        forall i, j | 0 <= i < j < |xs| ensures xs[i] != xs[j] {
          if i == 0 {
            assert xs[j] == xs[1..][j - 1];
            assert xs[j] in ys[1..];
          } else {
            assert xs[i] == xs[1..][i - 1] && xs[j] == xs[1..][j - 1];
          }
        }
      } else {
        SubsequenceKeepsDistinct(xs, ys[1..]);
      }
    }
  }

  lemma TechKeywordsDistinct()
    ensures NoDuplicates(TechKeywords)
  {
  }

  /** `vocab.filter(tech => /\btech\b/i.test(content))`. */
  function KeepWholeWords(content: string, vocab: seq<string>): (r: seq<string>)
    ensures IsSubsequence(r, vocab)
    ensures forall t :: t in r <==> t in vocab && WholeWordIn(content, t)
  {
    if vocab == [] then []
    else
      var rest := KeepWholeWords(content, vocab[1..]);
      if WholeWordIn(content, vocab[0]) then [vocab[0]] + rest else rest
  }

  /** The vocabulary keywords that occur as whole words, in vocabulary order. */
  function ExtractTechnologies(content: string): (r: seq<string>)
    ensures content == "" ==> r == []
    ensures IsSubsequence(r, TechKeywords) && NoDuplicates(r)
    ensures forall t :: t in r <==> t in TechKeywords && WholeWordIn(content, t)
  {
    if content == "" then []
    else
      var r := KeepWholeWords(content, TechKeywords);
      TechKeywordsDistinct();
      SubsequenceKeepsDistinct(r, TechKeywords);
      r
  }

  // ---------------------------------------------------------------------------
  // extractPublicationDate
  // ---------------------------------------------------------------------------

  /** `/\b(20\d{2})\b/` matches at index `i`. */
  predicate BoundedYearAt(s: string, i: int)
  {
    0 <= i && i + 4 <= |s| && s[i] == '2' && s[i + 1] == '0'
    && IsDigit(s[i + 2]) && IsDigit(s[i + 3])
    && BoundaryAt(s, i) && BoundaryAt(s, i + 4)
  }

  /** The leftmost index at or after `from` where the word-bounded year pattern matches. */
  function FirstBoundedYear(s: string, from: nat): (k: Option<nat>)
    decreases |s| - from
    ensures k.Some? ==>
      (from <= k.value && BoundedYearAt(s, k.value)
       && forall j | from <= j < k.value :: !BoundedYearAt(s, j))
    ensures k.None? ==> forall j | from <= j :: !BoundedYearAt(s, j)
  {
    if from + 4 > |s| then None
    else if BoundedYearAt(s, from) then Some(from)
    else FirstBoundedYear(s, from + 1)
  }

  const YearNotFound := "Year not found"

  /**
   * The publication-date fallback. `dateYear` stands for
   * `new Date(d).getFullYear().toString()`, with `None` for an invalid date.
   */
  function ExtractPublicationDate(r: RawResult, dateYear: string -> Option<string>): (d: string)
    ensures Truthy(r.publishedDate) && dateYear(r.publishedDate.value).Some? ==>
      d == dateYear(r.publishedDate.value).value
    ensures !(Truthy(r.publishedDate) && dateYear(r.publishedDate.value).Some?) ==>
      (d == YearNotFound <==> r.snippet.None? || forall j | 0 <= j :: !BoundedYearAt(r.snippet.value, j))
    ensures !(Truthy(r.publishedDate) && dateYear(r.publishedDate.value).Some?) && d != YearNotFound ==>
      r.snippet.Some? &&
      exists k | 0 <= k <= |r.snippet.value| - 4 ::
        BoundedYearAt(r.snippet.value, k) && d == r.snippet.value[k..k + 4]
        && forall j | 0 <= j < k :: !BoundedYearAt(r.snippet.value, j)
  {
    if Truthy(r.publishedDate) && dateYear(r.publishedDate.value).Some? then
      dateYear(r.publishedDate.value).value
    else if r.snippet.Some? && FirstBoundedYear(r.snippet.value, 0).Some? then
      var k := FirstBoundedYear(r.snippet.value, 0).value;
      r.snippet.value[k..k + 4]
    else
      YearNotFound
  }

  // ---------------------------------------------------------------------------
  // searchCompetitorRelationship: one finding per organic result
  // ---------------------------------------------------------------------------

  /** The text the other extractors read: snippet, one space, title. */
  function ContentText(r: RawResult): (text: string)
  {
    OrElse(r.snippet, "") + " " + OrElse(r.title, "")
  }

  const NoTitle := "No title available"
  const NoSnippet := "No snippet available"
  const NoLink := "No link available"

  /** The finding one organic result maps to. */
  function ToFinding(r: RawResult, competitorName: string, targetCompany: string,
                     dateYear: string -> Option<string>): (f: Finding)
    ensures f.title == (if Truthy(r.title) then r.title.value else NoTitle)
    ensures f.snippet == (if Truthy(r.snippet) then r.snippet.value else NoSnippet)
    ensures f.link == (if Truthy(r.link) then r.link.value else NoLink)
    ensures f.title != "" && f.snippet != "" && f.link != ""
    ensures f.confidence == DetermineConfidence(r, competitorName, targetCompany)
    ensures f.relationship == FindRelationshipType(ContentText(r)) && f.relationship != UnknownRelationship
    ensures f.technologies == ExtractTechnologies(ContentText(r))
    ensures ExtractYear(ContentText(r)).Some? ==>
      f.year == YearNumber(ExtractYear(ContentText(r)).value) && 2000 <= f.year.value <= 2029
    ensures ExtractYear(ContentText(r)).None? ==> f.year == YearString(ExtractPublicationDate(r, dateYear))
    ensures f.publishedDate == (if Truthy(r.publishedDate) then r.publishedDate else None)
  {
    var content := ContentText(r);
    var contentYear := ExtractYear(content);
    Finding(
      OrElse(r.title, NoTitle),
      OrElse(r.snippet, NoSnippet),
      OrElse(r.link, NoLink),
      DetermineConfidence(r, competitorName, targetCompany),
      if contentYear.Some? then YearNumber(contentYear.value) else YearString(ExtractPublicationDate(r, dateYear)),
      ExtractTechnologies(content),
      FindRelationshipType(content),
      if Truthy(r.publishedDate) then r.publishedDate else None)
  }

  /** The findings for one competitor: one per organic result, in order; nothing when the call failed. */
  function SearchCompetitorRelationship(response: SearchResponse, competitor: Competitor,
                                        targetCompany: string,
                                        dateYear: string -> Option<string>): (fs: seq<Finding>)
    ensures response.Failed? || response.organicResults.None? ==> fs == []
    ensures response.Answered? && response.organicResults.Some? ==>
      |fs| == |response.organicResults.value|
      && forall i | 0 <= i < |fs| ::
        fs[i] == ToFinding(response.organicResults.value[i], competitor.name, targetCompany, dateYear)
  {
    match response
    case Failed => []
    case Answered(None) => []
    case Answered(Some(results)) =>
      seq(|results|, i requires 0 <= i < |results| =>
        ToFinding(results[i], competitor.name, targetCompany, dateYear))
  }
}
