# IntelliRival relationship heuristics in Dafny

IntelliRival searches the open web for evidence that each competitor on a
fixed list works with a target company. It scores every search result with
text heuristics and orders the competitors by what was found. This project
models that core and proves its properties:

- the signal extractors of `task/scraper.js`: confidence, relationship type,
  year, technologies, the publication-date fallback, and the mapping from one
  organic search result to one finding (`task_scraper.dfy`, module
  `TaskScraper`; worked instances in `task_examples.dfy`, module `TaskExamples`);
- `analyzeCompetitors` of `task/analyzer.js`. It is a method whose loop
  collects the competitors whose search returned something. It then puts the
  entries with a "High" finding first (`task_analyzer.dfy`, module `TaskAnalyzer`);
- `analyzeContent` of `backend/scraper.js`, the older detector. It is a method
  with the source's `relationshipFound`/`relationshipType` flags and its
  early-exit loop (`backend_scraper.dfy`, module `BackendScraper`).

The regular expressions are predicates over `seq<char>` (`text.dfy`, module
`Text`):

- case-insensitivity is ASCII lower-casing of both sides;
- `includes` is substring occurrence;
- `\b` compares the `\w`-ness of the two neighbouring characters, and
  positions outside the string count as non-word;
- `\s+` is a run of one or more characters of JavaScript's `\s` class.

The global `match(/(20[0-2][0-9])/g)` is a left-to-right scanner. After a
match it resumes behind that match, so matches never overlap: `"202029"`
yields 2020 and never sees the later 2029. The search provider call is a
`SearchResponse` value (`Failed`, or answered with or without
`organic_results`). The date parser is a function parameter. The analyzer
takes the search as a function `Competitor -> seq<Finding>` and the
competitor list as an argument.

`analyzeCompetitors` returns a bare array of `{ competitor, findings }`
entries. It computes no strength score, summary or analysis object, and the
model follows that code. `task/server.js:33` destructures
`{ results, analysis }` from that array, so both are undefined. Reading `analysis.overview` then throws, and the handler
turns that into a 500 response (task/server.js:65-70). The server is not part
of this model.

In the code as modelled:

- a missing title becomes "No title available";
- a finding's `year` is a number when the text holds one, and otherwise the
  string the publication-date fallback returns;
- the competitors are ordered by "has a High finding".

## Model

| member | source | states |
|---|---|---|
| `TaskScraper.DetermineConfidence` | task/scraper.js:45-57 | High exactly when snippet+title (joined with no space) contains, case-insensitively, the competitor name, the target name and one of partnership/collaboration/agreement/contract/case study; Medium exactly when both names are present without an indicator; Low exactly when either name is absent |
| `TaskExamples.ConfidenceJoinsWithoutSpace` | task/scraper.js:46-52 | a competitor name split between the end of the snippet and the start of the title still counts, because confidence joins the two with no separator |
| `TaskScraper.FirstMatchingPattern` | task/scraper.js:71-73 | the index returned is the first pattern at or after the start that matches; none is returned only when no later pattern matches |
| `TaskScraper.FindRelationshipType` | task/scraper.js:59-76 | "Unknown" exactly for empty text; "Business Relationship" exactly when none of the six `word\s+word` patterns matches case-insensitively; otherwise the name of a matching pattern that no earlier pattern precedes |
| `TaskExamples.StrategicPartnershipFirst` | task/scraper.js:62-73 | whenever the strategic pattern matches, the result is "strategic partnership", whatever else matches |
| `TaskExamples.StrategicBeatsServiceProvider` | task/scraper.js:62-73 | text that matches both the strategic and the service-provider pattern (with a tab and a space as `\s+`) is labelled "strategic partnership" |
| `TaskScraper.YearValue` | task/scraper.js:80 | a `20[0-2][0-9]` match denotes a year in 2000..2029 |
| `TaskScraper.ScanYears` | task/scraper.js:80-81 | every value the global scan returns is the year spelled at some matching position; the scan returns nothing exactly when no position matches |
| `TaskScraper.MaxOf` | task/scraper.js:82 | `Math.max` of a non-empty list is one of its elements and at least every element |
| `TaskScraper.ExtractYear` | task/scraper.js:78-83 | null exactly when no `20[0-2][0-9]` substring exists; otherwise a value in 2000..2029 that is one of the years the non-overlapping scan finds, is spelled at a matching position, and is at least every year the scan finds |
| `TaskExamples.YearScanDoesNotOverlap` | task/scraper.js:80-82 | matches do not overlap: in "202029" the year 2029 at index 2 exists but the result is 2020 |
| `TaskExamples.LatestYearWins` | task/scraper.js:80-82 | "2019 2022" gives 2022, the greatest match rather than the first |
| `TaskExamples.EmbeddedDigitsCount` | task/scraper.js:80 | there are no word boundaries: "120219" gives 2021 |
| `TaskScraper.KeepWholeWords` | task/scraper.js:93-94 | the filter keeps a subsequence of the vocabulary, and a keyword is kept iff it occurs case-insensitively with `\b` on both sides |
| `TaskScraper.SubsequenceKeepsDistinct` | task/scraper.js:88-94 | a subsequence of a duplicate-free list is duplicate-free |
| `TaskScraper.ExtractTechnologies` | task/scraper.js:85-95 | empty text gives an empty list; the result is a duplicate-free subsequence of the 11-keyword vocabulary in vocabulary order, holding a keyword iff it occurs as a whole word, case-insensitively |
| `TaskScraper.FirstBoundedYear` | task/scraper.js:108-109 | the index returned is the leftmost position where `\b20\d\d\b` matches; none is returned only when no position matches |
| `TaskScraper.ExtractPublicationDate` | task/scraper.js:98-115 | a valid published date gives its year; otherwise the result is the first word-bounded `20\d\d` of the snippet, and "Year not found" exactly when the snippet is missing or has none |
| `TaskScraper.ToFinding` | task/scraper.js:17-30 | missing or empty title/snippet/link become "No title available"/"No snippet available"/"No link available", so none is empty; the relationship is never "Unknown", because the text always holds the joining space; the year is exactly the number `ExtractYear` finds in the text when there is one (so in 2000..2029), else the publication-date fallback string; `publishedDate` is the published date when present and non-empty, else null; confidence, technologies and relationship come from the extractors |
| `TaskScraper.SearchCompetitorRelationship` | task/scraper.js:6-43 | a failed call or missing `organic_results` gives no findings; otherwise exactly one finding per organic result, in the same order |
| `TaskAnalyzer.EntryFor` | task/analyzer.js:12-18 | an entry is pushed for a competitor exactly when its search returned something, and it is `{ competitor: name, findings: search results }` |
| `TaskAnalyzer.Collect` | task/analyzer.js:9-19 | the loop keeps no more entries than the list has competitors, and every entry it keeps has non-empty findings, which are exactly the search results of a listed competitor, under that competitor's name |
| `TaskAnalyzer.CollectAppend` | task/analyzer.js:9-19 | before sorting, entries follow competitor-list order: collecting `a + b` gives the entries of `a` followed by those of `b` |
| `TaskAnalyzer.CollectComplete` | task/analyzer.js:12-18 | every listed competitor whose search returned something has its entry |
| `TaskAnalyzer.NothingFoundYieldsEmpty` | task/analyzer.js:7-19 | an empty competitor list, or searches that all return nothing, give an empty result |
| `TaskAnalyzer.CompareByHigh` | task/analyzer.js:22-29 | the comparator is 0 exactly when both entries agree on "some finding is High" (the `findings.some` test of lines 23-24), negative exactly when only the first has one, positive exactly when only the second has one |
| `TaskAnalyzer.RankByHigh` | task/analyzer.js:22-29 | the sort's outcome (High class in collected order, then the other class in collected order) has the input's length and holds only input entries; see the lemmas below for permutation, order, stability and uniqueness |
| `TaskAnalyzer.Keep` | task/analyzer.js:23-24 | each class holds only input entries whose "some finding is High" test has the class's value |
| `TaskAnalyzer.RankIsPermutation` | task/analyzer.js:22-29 | the sort result is a permutation of the collected entries |
| `TaskAnalyzer.RankIsSorted` | task/analyzer.js:22-29 | the sort result is ordered by the comparator: every entry with a High finding precedes every entry without one |
| `TaskAnalyzer.RankIsStable` | task/analyzer.js:22-29 | within each class the entries keep their collected order |
| `TaskAnalyzer.SortedSplits` | task/analyzer.js:22-29 | a sequence ordered by the comparator is its High class followed by its other class |
| `TaskAnalyzer.RankIsUnique` | task/analyzer.js:22-29 | any order that is sorted under the comparator and keeps each class's order equals the modelled result, so a stable sort can produce nothing else |
| `TaskAnalyzer.AnalyzeCompetitors` | task/analyzer.js:5-33 | the output is the collected entries sorted High-first; it is no longer than the competitor list, every entry has non-empty findings equal to one listed competitor's search results, it is a permutation of the collected entries, and it is ordered by the comparator |
| `BackendScraper.FirstTerm` | backend/scraper.js:73-79 | the term returned is the first one, in list order, that the text includes; none is returned only when the text includes no term |
| `BackendScraper.ContentRelationship` | backend/scraper.js:52-83 | missing or empty content gives null; a term is returned exactly when the competitor (full or short name) and the target occur as whole words, case-insensitively, and the lower-cased content includes some term; the term is then the first one in list order and a member of the 14-term list |
| `BackendScraper.ShortNameSuffices` | backend/scraper.js:56-59 | a whole-word match of the short name alone satisfies the competitor test |
| `BackendScraper.AnalyzeContent` | backend/scraper.js:52-83 | the flag-and-break loop computes exactly `ContentRelationship` |

## Left out

- The HTTP call to the search provider is not modelled, nor the query string, the API key or the logging (task/scraper.js:4, 8-15, 33-35, 40). The call's outcome is the `SearchResponse` argument.
- Exceptions: `Failed` stands for any exception the call raises, and it yields no findings. No other step of the model can fail.
- `new Date(published_date).getFullYear().toString()` (task/scraper.js:100-105) is foreign date parsing. It is the parameter `dateYear`, with `None` for an invalid date.
- backend/scraper.js `searchCompetitorRelationship` and `extractContentFromUrl` (lines 6-49) are HTTP and HTML parsing. `extractContentFromUrl` returning null is covered by the `Option` content of `AnalyzeContent`.
- task/server.js, task/competitors.js and the front-end scripts are routing, static data and rendering. They are not part of this model; the competitor list is an argument.
- Case-insensitive matching uses ASCII lower-casing only. It does not do JavaScript's full Unicode case mapping.
- Competitor and target names are matched as literal text. `analyzeContent` builds its regular expressions from unescaped names, so a name holding metacharacters (such as the parentheses in "Tata Consultancy Services (TCS)") behaves differently in the source.
- JavaScript's `typeof` checks and non-string field values are not modelled. Every field is a string or missing.
- `AnalyzeCompetitors`: the sort is modelled by its outcome (`RankByHigh`), which any stable sort under this comparator produces (`RankIsUnique`). It is not the engine's in-place sorting algorithm: the method reassigns its result sequence instead of permuting an array.
- `async`/`await` sequencing of the searches is not modelled. The searches are a pure function of the competitor.
