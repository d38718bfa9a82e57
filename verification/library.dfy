/**
 The script library view: a conjunctive filter over the stored scripts
 (search text, language, status) and the summary statistics shown under it.
 */
module Library {
  import opened Text

  datatype ScriptStatus = Generated | Validated | Failed

  /** The status as the source spells it, which is what the status filter compares. */
  function StatusName(st: ScriptStatus): string {
    match st
    case Generated => "generated"
    case Validated => "validated"
    case Failed => "failed"
  }

  datatype Script = Script(
    id: string,
    name: string,
    description: string,
    language: string,
    createdAt: string,
    lastModified: string,
    size: string,
    confidence: int,
    patterns: seq<string>,
    status: ScriptStatus)

  function SeedLibrary(): seq<Script> {
    [ Script("1", "Login Flow Test", "Automated login test with email and password validation", "java",
             "2024-01-20", "2024-01-20", "2.3 KB", 95, ["Login Flow", "Form Validation"], Validated),
      Script("2", "Navigation Test Suite", "Complete navigation flow testing across app screens", "python",
             "2024-01-19", "2024-01-19", "4.1 KB", 92, ["Navigation Flow", "Menu Interaction"], Generated),
      Script("3", "Form Submission Test", "Multi-step form submission with validation checks", "javascript",
             "2024-01-18", "2024-01-18", "3.7 KB", 88, ["Form Validation", "Error Handling"], Validated),
      Script("4", "Search Functionality", "Search feature testing with various input scenarios", "java",
             "2024-01-17", "2024-01-17", "1.9 KB", 85, ["Search Flow", "Loading States"], Failed) ]
  }

  // ---------------------------------------------------------------------------
  // The filter
  // ---------------------------------------------------------------------------

  /** The three controls; `"all"` switches the language or status filter off. */
  datatype Query = Query(searchTerm: string, language: string, status: string)

  const DefaultQuery := Query("", "all", "all")

  predicate MatchesSearch(s: Script, term: string) {
    Includes(LowerStr(s.name), LowerStr(term)) || Includes(LowerStr(s.description), LowerStr(term))
  }

  predicate Matches(s: Script, q: Query) {
    && MatchesSearch(s, q.searchTerm)
    && (q.language == "all" || s.language == q.language)
    && (q.status == "all" || StatusName(s.status) == q.status)
  }

  /** `a` is `b` with some elements left out, the rest in their original order. */
  predicate IsSubsequence<T(==)>(a: seq<T>, b: seq<T>)
    decreases |b|
  {
    if a == [] then true
    else if b == [] then false
    else (a[0] == b[0] && IsSubsequence(a[1..], b[1..])) || IsSubsequence(a, b[1..])
  }

  /** `filteredScripts`: keeps exactly the matching scripts, as often as they
      occur, in their original order. */
  function FilterScripts(scripts: seq<Script>, q: Query): (r: seq<Script>)
    ensures IsSubsequence(r, scripts)
    ensures forall i :: 0 <= i < |r| ==> Matches(r[i], q)
    ensures forall x :: multiset(r)[x] == if Matches(x, q) then multiset(scripts)[x] else 0
    decreases |scripts|
  {
    if scripts == [] then []
    else
      assert scripts == [scripts[0]] + scripts[1..];
      var rest := FilterScripts(scripts[1..], q);
      if Matches(scripts[0], q) then
        assert ([scripts[0]] + rest)[1..] == rest;
        [scripts[0]] + rest
      else
        rest
  }

  /** The search term is compared case-insensitively, as a substring. */
  lemma MatchesSearchIsSubstring(s: Script, term: string)
    ensures MatchesSearch(s, term) <==>
              IsSubstring(LowerStr(term), LowerStr(s.name)) || IsSubstring(LowerStr(term), LowerStr(s.description))
  {
    IncludesIsSubstring(LowerStr(s.name), LowerStr(term));
    IncludesIsSubstring(LowerStr(s.description), LowerStr(term));
  }

  /** With nothing typed and both filters on "all", every script is listed. */
  lemma {:induction false} DefaultQueryKeepsAll(scripts: seq<Script>)
    ensures FilterScripts(scripts, DefaultQuery) == scripts
    decreases |scripts|
  {
    if scripts != [] {
      IncludesEmpty(LowerStr(scripts[0].name));
      assert Matches(scripts[0], DefaultQuery);
      DefaultQueryKeepsAll(scripts[1..]);
    }
  }

  /** The empty-state card is shown exactly when nothing passes the filter. */
  predicate ShowEmptyState(scripts: seq<Script>, q: Query) {
    |FilterScripts(scripts, q)| == 0
  }

  /** Which hint the empty-state card gives. */
  function EmptyStateHint(q: Query): string {
    if q.searchTerm != "" || q.language != "all" || q.status != "all"
    then "Try adjusting your search or filters"
    else "Generate your first Appium script to get started"
  }

  lemma EmptyStateIffNoMatch(scripts: seq<Script>, q: Query)
    ensures ShowEmptyState(scripts, q) <==> forall x :: x in scripts ==> !Matches(x, q)
  {
    var r := FilterScripts(scripts, q);
    if r == [] {
      forall x | x in scripts
        ensures !Matches(x, q)
      {
        assert multiset(r)[x] == 0;
      }
    } else {
      assert r[0] in multiset(r);
      assert Matches(r[0], q);
    }
  }

  /** On a non-empty library the empty state can only come from an active
      filter, so the "generate your first script" hint never shows. */
  lemma EmptyStateNeedsFilter(scripts: seq<Script>, q: Query)
    requires scripts != [] && ShowEmptyState(scripts, q)
    ensures q != DefaultQuery
    ensures EmptyStateHint(q) == "Try adjusting your search or filters"
  {
    if q == DefaultQuery {
      DefaultQueryKeepsAll(scripts);
    }
  }

  // ---------------------------------------------------------------------------
  // Summary statistics
  // ---------------------------------------------------------------------------

  function ValidatedCount(scripts: seq<Script>): (n: nat)
    ensures n <= |scripts|
  {
    if scripts == [] then 0
    else (if scripts[0].status == Validated then 1 else 0) + ValidatedCount(scripts[1..])
  }

  /** The validated count is the size of the list the "validated" status filter shows. */
  lemma {:induction false} ValidatedCountIsFilter(scripts: seq<Script>)
    ensures ValidatedCount(scripts) == |FilterScripts(scripts, Query("", "all", "validated"))|
    decreases |scripts|
  {
    if scripts != [] {
      IncludesEmpty(LowerStr(scripts[0].name));
      ValidatedCountIsFilter(scripts[1..]);
    }
  }

  function ConfidenceSum(scripts: seq<Script>): int {
    if scripts == [] then 0 else scripts[0].confidence + ConfidenceSum(scripts[1..])
  }

  /** `Math.round(num / den)` for a positive denominator: the nearest integer,
      halves rounded up. */
  function RoundDiv(num: int, den: int): (q: int)
    requires den > 0
    ensures den * (2 * q - 1) <= 2 * num < den * (2 * q + 1)
  {
    var n, d := 2 * num + den, 2 * den;
    var q := n / d;
    assert d * q <= n < d * q + d;
    q
  }

  /** The average confidence; `None` for an empty library, where the source
      divides by zero and shows `NaN`. */
  function AverageConfidence(scripts: seq<Script>): (r: Option<int>)
    ensures r.None? <==> scripts == []
  {
    if scripts == [] then None else Some(RoundDiv(ConfidenceSum(scripts), |scripts|))
  }

  function MinConfidence(scripts: seq<Script>): int
    requires scripts != []
  {
    if |scripts| == 1 then scripts[0].confidence
    else var m := MinConfidence(scripts[1..]); if scripts[0].confidence < m then scripts[0].confidence else m
  }

  function MaxConfidence(scripts: seq<Script>): int
    requires scripts != []
  {
    if |scripts| == 1 then scripts[0].confidence
    else var m := MaxConfidence(scripts[1..]); if scripts[0].confidence > m then scripts[0].confidence else m
  }

  lemma {:induction false} SumBounds(scripts: seq<Script>)
    requires scripts != []
    ensures |scripts| * MinConfidence(scripts) <= ConfidenceSum(scripts) <= |scripts| * MaxConfidence(scripts)
    decreases |scripts|
  {
    if |scripts| > 1 {
      var rest := scripts[1..];
      var n, lo, hi := |rest|, MinConfidence(scripts), MaxConfidence(scripts);
      SumBounds(rest);
      assert lo <= scripts[0].confidence <= hi;
      assert lo <= MinConfidence(rest) && MaxConfidence(rest) <= hi;
      assert ConfidenceSum(scripts) == scripts[0].confidence + ConfidenceSum(rest);
      MulMonotone(n, lo, MinConfidence(rest));
      MulMonotone(n, MaxConfidence(rest), hi);
      MulSucc(n, lo);
      MulSucc(n, hi);
    }
  }

  lemma MulSucc(n: nat, a: int)
    ensures (n + 1) * a == n * a + a
  {
  }

  lemma MulMonotone(n: nat, a: int, b: int)
    requires a <= b
    ensures n * a <= n * b
  {
    assert n * b - n * a == n * (b - a);
  }

  /** A positive factor keeps the sign. */
  lemma MulPositive(n: int, x: int)
    requires n > 0
    ensures n * x <= 0 ==> x <= 0
    ensures n * x < 0 ==> x < 0
  {
    if x > 0 {
      MulMonotone(n, 1, x);
    }
  }

  /** Rounding a quotient stays within any integer bounds of the quotient. */
  lemma RoundWithin(num: int, den: int, lo: int, hi: int)
    requires den > 0 && den * lo <= num <= den * hi
    ensures lo <= RoundDiv(num, den) <= hi
  {
    var q := RoundDiv(num, den);
    assert den * (2 * q - 1 - 2 * hi) <= 0 by {
      assert den * (2 * q - 1 - 2 * hi) == den * (2 * q - 1) - 2 * (den * hi);
    }
    MulPositive(den, 2 * q - 1 - 2 * hi);
    assert den * (2 * lo - 2 * q - 1) < 0 by {
      assert den * (2 * lo - 2 * q - 1) == 2 * (den * lo) - den * (2 * q + 1);
    }
    MulPositive(den, 2 * lo - 2 * q - 1);
  }

  /** The rounded average lies between the least and the greatest confidence. */
  lemma AverageWithinRange(scripts: seq<Script>)
    requires scripts != []
    ensures MinConfidence(scripts) <= AverageConfidence(scripts).value <= MaxConfidence(scripts)
  {
    SumBounds(scripts);
    RoundWithin(ConfidenceSum(scripts), |scripts|, MinConfidence(scripts), MaxConfidence(scripts));
  }

  /** All pattern names of the listed scripts, in order. */
  function AllPatterns(scripts: seq<Script>): seq<string> {
    if scripts == [] then [] else scripts[0].patterns + AllPatterns(scripts[1..])
  }

  function TotalPatterns(scripts: seq<Script>): nat {
    if scripts == [] then 0 else |scripts[0].patterns| + TotalPatterns(scripts[1..])
  }

  /** The pattern total counts every pattern entry of every script: it is the
      length of their concatenation, and adds up over any split of the list. */
  lemma {:induction false} TotalPatternsCountsAll(scripts: seq<Script>)
    ensures TotalPatterns(scripts) == |AllPatterns(scripts)|
    decreases |scripts|
  {
    if scripts != [] {
      TotalPatternsCountsAll(scripts[1..]);
    }
  }

  lemma {:induction false} TotalPatternsSplit(a: seq<Script>, b: seq<Script>)
    ensures TotalPatterns(a + b) == TotalPatterns(a) + TotalPatterns(b)
    decreases |a|
  {
    if a == [] {
      assert a + b == b;
    } else {
      assert (a + b)[1..] == a[1..] + b;
      TotalPatternsSplit(a[1..], b);
    }
  }

  /** The figures the seeded library shows. */
  lemma SeedSummary()
    ensures |SeedLibrary()| == 4
    ensures ValidatedCount(SeedLibrary()) == 2
    ensures AverageConfidence(SeedLibrary()) == Some(90)
    ensures TotalPatterns(SeedLibrary()) == 8
  {
    var s := SeedLibrary();
    assert s[1..][1..][1..][1..] == [];
    assert ConfidenceSum(s) == 360;
  }
}
