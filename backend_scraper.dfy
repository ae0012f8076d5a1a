/**
 * `analyzeContent` of `backend/scraper.js`, the older relationship detector:
 * both names must occur as whole words, case-insensitively, and the result is
 * the first relationship term the lower-cased content includes.
 */
module BackendScraper {
  import opened Common
  import opened Text

  /** The relationship terms, in the order the loop tries them. */
  const RelationshipTerms: seq<string> := [
    "partnership", "client", "collaboration", "project", "engagement",
    "contract", "agreement", "work with", "working with", "case study",
    "success story", "implementation", "transformation", "solution"
  ]

  /** `/\bname\b|\bshortName\b/i.test(content)`, names read as literal text. */
  predicate MentionsCompetitor(content: string, competitor: Competitor)
  {
    WholeWordIn(content, competitor.name) || WholeWordIn(content, competitor.shortName)
  }

  /** `/\btarget\b/i.test(content)`, the name read as literal text. */
  predicate MentionsTarget(content: string, targetCompany: string)
  {
    WholeWordIn(content, targetCompany)
  }

  /** Some relationship term occurs in `text`. */
  predicate AnyTerm(text: string)
  {
    exists k | 0 <= k < |RelationshipTerms| :: Includes(text, RelationshipTerms[k])
  }

  /** The first term at or after index `from` that `text` includes. */
  function FirstTerm(text: string, from: nat): (t: Option<string>)
    decreases |RelationshipTerms| - from
    ensures t.Some? ==>
      exists k | from <= k < |RelationshipTerms| ::
        t.value == RelationshipTerms[k] && Includes(text, RelationshipTerms[k])
        && forall j | from <= j < k :: !Includes(text, RelationshipTerms[j])
    ensures t.None? ==> forall j | from <= j < |RelationshipTerms| :: !Includes(text, RelationshipTerms[j])
  {
    if from >= |RelationshipTerms| then None
    else if Includes(text, RelationshipTerms[from]) then Some(RelationshipTerms[from])
    else FirstTerm(text, from + 1)
  }

  /** The relationship term the content evidences, or `null`. */
  function ContentRelationship(content: Option<string>, competitor: Competitor, targetCompany: string): (r: Option<string>)
    ensures !Truthy(content) ==> r.None?
    ensures r.Some? <==>
      Truthy(content) && MentionsCompetitor(content.value, competitor)
      && MentionsTarget(content.value, targetCompany) && AnyTerm(Lower(content.value))
    ensures r.Some? ==>
      exists k | 0 <= k < |RelationshipTerms| ::
        r.value == RelationshipTerms[k] && Includes(Lower(content.value), RelationshipTerms[k])
        && forall j | 0 <= j < k :: !Includes(Lower(content.value), RelationshipTerms[j])
    ensures r.Some? ==> r.value in RelationshipTerms
  {
    if !Truthy(content) then None
    else if MentionsCompetitor(content.value, competitor) && MentionsTarget(content.value, targetCompany) then
      FirstTerm(Lower(content.value), 0)
    else None
  }

  /** A whole-word match of the short name alone satisfies the competitor test. */
  lemma ShortNameSuffices(content: string, competitor: Competitor, targetCompany: string)
    requires WholeWordIn(content, competitor.shortName) && !WholeWordIn(content, competitor.name)
    requires MentionsTarget(content, targetCompany) && AnyTerm(Lower(content))
    ensures ContentRelationship(Some(content), competitor, targetCompany).Some?
  {
  }

  /**
   * Keeps the flags `relationshipFound` and `relationshipType` and leaves the
   * term loop at the first term the content includes.
   */
  method AnalyzeContent(content: Option<string>, competitor: Competitor, targetCompany: string)
    returns (r: Option<string>)
    ensures r == ContentRelationship(content, competitor, targetCompany)
  {
    if !Truthy(content) {
      return None;
    }
    var text := content.value;
    var hasCompetitor := WholeWordIn(text, competitor.name) || WholeWordIn(text, competitor.shortName);
    var hasTarget := WholeWordIn(text, targetCompany);

    var relationshipFound := false;
    var relationshipType := "";
    if hasCompetitor && hasTarget {
      for k := 0 to |RelationshipTerms|
        invariant !relationshipFound
        invariant FirstTerm(Lower(text), k) == FirstTerm(Lower(text), 0)
      {
        if Includes(Lower(text), RelationshipTerms[k]) {
          relationshipFound := true;
          relationshipType := RelationshipTerms[k];
          break;
        }
      }
    }
    r := if relationshipFound then Some(relationshipType) else None;
  }
}
