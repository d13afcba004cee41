/**
  The content analyzer of the risk engine (`analyzeContentRisk` in
  `lib/sps-rules.ts`): forbidden keywords, suspicious-claim patterns, title
  length, capitalization, exclamation marks and the product category, each
  adding fixed points; the sum is capped at 60.

  The checks take the keyword and category lists as parameters and are
  proved correct for any lists; `AnalyzeContentRisk` fixes them to the
  engine's own lists.
*/
module ContentRisk {
  import opened Wrappers
  import opened Seqs
  import opened Strings
  import opened RiskModel

  /** Words claiming a health effect. */
  const HealthClaims: seq<string> := [
    "cure", "treat", "diagnose", "heal", "medical grade",
    "fda approved", "clinically proven", "doctor recommended"
  ]

  /** Misleading promises. */
  const MisleadingTerms: seq<string> := [
    "guaranteed", "risk-free", "100% effective", "miracle",
    "instant results", "overnight", "revolutionary"
  ]

  /** Items a marketplace forbids. */
  const ProhibitedItems: seq<string> := [
    "weapon", "drug", "prescription", "tobacco", "vape",
    "alcohol", "counterfeit", "replica", "fake"
  ]

  /** Intellectual-property terms; the third is one keyword, not two. */
  const BrandTerms: seq<string> := [
    "authentic", "original", "genuine" + " brand name", "official"
  ]

  /** Dangerous products. */
  const DangerousProducts: seq<string> := [
    "flammable", "toxic", "hazardous", "explosive"
  ]

  /** The engine's keyword list, the five groups in source order. */
  const ForbiddenKeywords: seq<string> :=
    HealthClaims + MisleadingTerms + ProhibitedItems + BrandTerms + DangerousProducts

  const SuspiciousCategories: seq<string> := [
    "health", "supplements", "medicine", "beauty treatments",
    "weight loss", "muscle building", "gambling", "cryptocurrency"
  ]

  // ------------------------------------------------------------------ the checks

  /** The lowercased `title + " " + description` that keywords, patterns and `!` are looked for in. */
  function FullText(l: Listing): string {
    Lower(l.title + " " + l.description)
  }

  /** One check per keyword, in list order: a keyword the text contains scores 15 and is reported once. */
  function KeywordCheck(text: string, keywords: seq<string>): Analysis
    decreases |keywords|
  {
    if |keywords| == 0 then Clear
    else Then(When(Contains(text, Lower(keywords[0])), ForbiddenKeyword(keywords[0])),
              KeywordCheck(text, keywords[1..]))
  }

  /** One check per pattern, in list order: a matching pattern scores 10 and reports a suspicious claim. */
  function PatternCheck(text: string, patterns: seq<Pattern>): Analysis
    decreases |patterns|
  {
    if |patterns| == 0 then Clear
    else Then(When(patterns[0](text), SuspiciousClaim), PatternCheck(text, patterns[1..]))
  }

  /**
    More than half of the title's code units are capital letters `A`-`Z`; an
    empty title gives the ratio 0/0, which is not greater than one half.
  */
  predicate ShoutingTitle(title: string) {
    Utf16Length(title) > 0 && (CountUpper(title) as real) / (Utf16Length(title) as real) > 0.5
  }

  /** Some name of `names`, lowercased, occurs in `text`: the source's `some(... includes ...)`. */
  predicate MentionsAny(text: string, names: seq<string>)
    decreases |names|
  {
    |names| > 0 && (Contains(text, Lower(names[0])) || MentionsAny(text, names[1..]))
  }

  /** A present, non-empty category that, lowercased, contains one of `names`. */
  predicate RiskyCategory(category: Option<string>, names: seq<string>) {
    TruthyText(category) && MentionsAny(Lower(category.value), names)
  }

  /** The title length, capitalization, punctuation and category rules, in the source's order, for the given findings. */
  function TailRules(short: bool, long: bool, caps: bool, bang: bool, category: bool): Analysis {
    Then(When(short, TitleTooShort),
    Then(When(long, TitleTooLong),
    Then(When(caps, ExcessiveCaps),
    Then(When(bang, TooManyExclamations),
         When(category, HighRiskCategory)))))
  }

  /** The title length, capitalization, punctuation and category checks of a listing. */
  function TailCheck(l: Listing, categories: seq<string>): Analysis {
    TailRules(Utf16Length(l.title) < 20, Utf16Length(l.title) > 100, ShoutingTitle(l.title),
              CountChar(FullText(l), '!') > 3, RiskyCategory(l.category, categories))
  }

  /** Every content check in the source's order: keywords, patterns, then the rest. */
  function ContentChecks(l: Listing, keywords: seq<string>, categories: seq<string>, patterns: seq<Pattern>): Analysis {
    Then(KeywordCheck(FullText(l), keywords), Then(PatternCheck(FullText(l), patterns), TailCheck(l, categories)))
  }

  /** The content analyzer: every content check over the engine's lists, capped at 60. */
  function AnalyzeContentRisk(l: Listing, patterns: seq<Pattern>): (a: Analysis)
    ensures a.score <= ContentCap
  {
    Capped(ContentChecks(l, ForbiddenKeywords, SuspiciousCategories, patterns), ContentCap)
  }

  // ------------------------------------------------------------------ the checks, one by one

  /** The keyword check is priced at 15 per violation and reports keyword violations only. */
  lemma {:induction false} KeywordPriced(text: string, keywords: seq<string>)
    ensures Priced(KeywordCheck(text, keywords)) && TypesIn(KeywordCheck(text, keywords), {Keyword})
    decreases |keywords|
  {
    if |keywords| > 0 {
      KeywordPriced(text, keywords[1..]);
      var k := keywords[0];
      WhenChecked(Contains(text, Lower(k)), ForbiddenKeyword(k), {Keyword});
      ThenChecked(When(Contains(text, Lower(k)), ForbiddenKeyword(k)), KeywordCheck(text, keywords[1..]), {Keyword});
    }
  }

  /** A keyword is reported exactly when it is in the list and the text contains it. */
  lemma {:induction false} KeywordMember(text: string, keywords: seq<string>, k: string)
    ensures ForbiddenKeyword(k) in KeywordCheck(text, keywords).violations <==> k in keywords && Contains(text, Lower(k))
    decreases |keywords|
  {
    if |keywords| > 0 {
      KeywordMember(text, keywords[1..], k);
      assert keywords == [keywords[0]] + keywords[1..];
    }
  }

  /** A keyword the text contains is reported as often as it is listed; one it lacks, never. */
  lemma {:induction false} KeywordMultiplicity(text: string, keywords: seq<string>, k: string)
    ensures multiset(KeywordCheck(text, keywords).violations)[ForbiddenKeyword(k)]
         == if Contains(text, Lower(k)) then multiset(keywords)[k] else 0
    decreases |keywords|
  {
    if |keywords| > 0 {
      KeywordMultiplicity(text, keywords[1..], k);
      assert keywords == [keywords[0]] + keywords[1..];
    }
  }

  /** The keyword violations `keywords` yield: one per keyword, in list order. */
  function KeywordViolations(keywords: seq<string>): (vs: seq<Violation>)
    ensures |vs| == |keywords|
    ensures forall i :: 0 <= i < |keywords| ==> vs[i] == ForbiddenKeyword(keywords[i])
    decreases |keywords|
  {
    if |keywords| == 0 then [] else [ForbiddenKeyword(keywords[0])] + KeywordViolations(keywords[1..])
  }

  /** Whether `text` contains the lowercased keyword. */
  function KeywordIn(text: string): string -> bool {
    (k: string) => Contains(text, Lower(k))
  }

  /** The keyword check reports the keywords the text contains, filtered from the list in order. */
  lemma {:induction false} KeywordOrder(text: string, keywords: seq<string>)
    ensures KeywordCheck(text, keywords).violations == KeywordViolations(Filter(keywords, KeywordIn(text)))
    decreases |keywords|
  {
    if |keywords| > 0 {
      KeywordOrder(text, keywords[1..]);
      var rest := Filter(keywords[1..], KeywordIn(text));
      if KeywordIn(text)(keywords[0]) {
        assert Filter(keywords, KeywordIn(text)) == [keywords[0]] + rest;
        assert KeywordViolations([keywords[0]] + rest)[1..] == KeywordViolations(rest);
      } else {
        assert Filter(keywords, KeywordIn(text)) == rest;
      }
    }
  }

  /** `n` copies of `v`. */
  function Repeat(v: Violation, n: nat): (vs: seq<Violation>)
    ensures |vs| == n
    ensures forall i :: 0 <= i < n ==> vs[i] == v
  {
    if n == 0 then [] else [v] + Repeat(v, n - 1)
  }

  /** The number of patterns that match `text`. */
  function PatternHits(text: string, patterns: seq<Pattern>): nat {
    Count(patterns, (p: Pattern) => p(text))
  }

  /** The pattern check reports one suspicious claim per matching pattern, and is priced at 10 each. */
  lemma {:induction false} PatternReports(text: string, patterns: seq<Pattern>)
    ensures PatternCheck(text, patterns).violations == Repeat(SuspiciousClaim, PatternHits(text, patterns))
    ensures Priced(PatternCheck(text, patterns)) && TypesIn(PatternCheck(text, patterns), {Pattern})
    decreases |patterns|
  {
    if |patterns| > 0 {
      PatternReports(text, patterns[1..]);
      var first := When(patterns[0](text), SuspiciousClaim);
      WhenChecked(patterns[0](text), SuspiciousClaim, {Pattern});
      ThenChecked(first, PatternCheck(text, patterns[1..]), {Pattern});
      var n := PatternHits(text, patterns[1..]);
      if patterns[0](text) {
        assert [SuspiciousClaim] + Repeat(SuspiciousClaim, n) == Repeat(SuspiciousClaim, n + 1);
      }
    }
  }

  lemma {:induction false} MentionsAnyExists(text: string, names: seq<string>)
    ensures MentionsAny(text, names) <==> exists name | name in names :: Contains(text, Lower(name))
    decreases |names|
  {
    if |names| > 0 {
      MentionsAnyExists(text, names[1..]);
      assert names == [names[0]] + names[1..];
    }
  }

  /** The category rule fires exactly for a non-empty category naming, lowercased, one of `names`. */
  lemma RiskyCategoryMeans(category: Option<string>, names: seq<string>)
    ensures RiskyCategory(category, names) <==>
      && category.Some? && category.value != ""
      && exists name | name in names :: Contains(Lower(category.value), Lower(name))
  {
    if category.Some? {
      MentionsAnyExists(Lower(category.value), names);
    }
  }

  const TailTypes: set<ViolationType> := {TitleLength, Caps, Punctuation, Category}

  /** The tail rules are priced and report only tail types. */
  lemma TailPriced(short: bool, long: bool, caps: bool, bang: bool, category: bool)
    ensures var a := TailRules(short, long, caps, bang, category);
      Priced(a) && TypesIn(a, TailTypes)
  {
    var s, g, c, b, y := When(short, TitleTooShort), When(long, TitleTooLong), When(caps, ExcessiveCaps),
                         When(bang, TooManyExclamations), When(category, HighRiskCategory);
    WhenChecked(short, TitleTooShort, TailTypes);
    WhenChecked(long, TitleTooLong, TailTypes);
    WhenChecked(caps, ExcessiveCaps, TailTypes);
    WhenChecked(bang, TooManyExclamations, TailTypes);
    WhenChecked(category, HighRiskCategory, TailTypes);
    ThenChecked(b, y, TailTypes);
    ThenChecked(c, Then(b, y), TailTypes);
    ThenChecked(g, Then(c, Then(b, y)), TailTypes);
    ThenChecked(s, Then(g, Then(c, Then(b, y))), TailTypes);
  }

  /** Each tail rule is in `vs` exactly when its finding holds. */
  predicate TailReported(vs: seq<Violation>, short: bool, long: bool, caps: bool, bang: bool, category: bool) {
    && (TitleTooShort in vs <==> short)
    && (TitleTooLong in vs <==> long)
    && (ExcessiveCaps in vs <==> caps)
    && (TooManyExclamations in vs <==> bang)
    && (HighRiskCategory in vs <==> category)
  }

  /** Each tail rule is reported exactly when its finding holds. */
  lemma TailReports(short: bool, long: bool, caps: bool, bang: bool, category: bool)
    ensures TailReported(TailRules(short, long, caps, bang, category).violations, short, long, caps, bang, category)
  {
  }

  /** Each title, capitalization, punctuation and category rule is in `vs` exactly when its condition holds. */
  predicate TailFound(l: Listing, categories: seq<string>, vs: seq<Violation>) {
    TailReported(vs, Utf16Length(l.title) < 20, Utf16Length(l.title) > 100, ShoutingTitle(l.title),
                 CountChar(FullText(l), '!') > 3, RiskyCategory(l.category, categories))
  }

  /** The tail checks of a listing are priced and of tail types. */
  lemma TailCheckPriced(l: Listing, categories: seq<string>)
    ensures Priced(TailCheck(l, categories)) && TypesIn(TailCheck(l, categories), TailTypes)
  {
    var short, long, caps := Utf16Length(l.title) < 20, Utf16Length(l.title) > 100, ShoutingTitle(l.title);
    var bang, category := CountChar(FullText(l), '!') > 3, RiskyCategory(l.category, categories);
    TailPriced(short, long, caps, bang, category);
  }

  /** The tail checks of a listing report each rule exactly when its condition holds. */
  lemma TailCheckFound(l: Listing, categories: seq<string>)
    ensures TailFound(l, categories, TailCheck(l, categories).violations)
  {
    var short, long, caps := Utf16Length(l.title) < 20, Utf16Length(l.title) > 100, ShoutingTitle(l.title);
    var bang, category := CountChar(FullText(l), '!') > 3, RiskyCategory(l.category, categories);
    TailReports(short, long, caps, bang, category);
  }

  // ------------------------------------------------------------------ all content checks

  /** The content checks are priced and report content types only. */
  lemma ChecksPriced(l: Listing, keywords: seq<string>, categories: seq<string>, patterns: seq<Pattern>)
    ensures Priced(ContentChecks(l, keywords, categories, patterns))
    ensures TypesIn(ContentChecks(l, keywords, categories, patterns), ContentTypes)
  {
    var k, p, t := KeywordCheck(FullText(l), keywords), PatternCheck(FullText(l), patterns), TailCheck(l, categories);
    KeywordPriced(FullText(l), keywords);
    PatternReports(FullText(l), patterns);
    TailCheckPriced(l, categories);
    Widen(k, {Keyword}, ContentTypes);
    Widen(p, {Pattern}, ContentTypes);
    Widen(t, TailTypes, ContentTypes);
    ThenChecked(p, t, ContentTypes);
    ThenChecked(k, Then(p, t), ContentTypes);
  }

  /** Keyword, pattern and tail checks, each reporting only its own types. */
  predicate ContentParts(k: Analysis, p: Analysis, t: Analysis) {
    TypesIn(k, {Keyword}) && TypesIn(p, {Pattern}) && TypesIn(t, TailTypes)
  }

  /** The parts of the content checks report only their own types. */
  lemma ChecksParts(l: Listing, keywords: seq<string>, categories: seq<string>, patterns: seq<Pattern>)
    ensures ContentParts(KeywordCheck(FullText(l), keywords), PatternCheck(FullText(l), patterns), TailCheck(l, categories))
  {
    KeywordPriced(FullText(l), keywords);
    PatternReports(FullText(l), patterns);
    TailCheckPriced(l, categories);
  }

  /** Only the keyword part reports keywords. */
  lemma KeywordsFromFirst(k: Analysis, p: Analysis, t: Analysis)
    requires ContentParts(k, p, t)
    ensures Filter(Then(k, Then(p, t)).violations, OfType(Keyword)) == k.violations
  {
    Disjoint(p, {Pattern}, Keyword);
    Disjoint(t, TailTypes, Keyword);
    FirstOnly(k, Then(p, t), Keyword);
  }

  /** Only the pattern part reports suspicious claims. */
  lemma PatternsFromSecond(k: Analysis, p: Analysis, t: Analysis)
    requires ContentParts(k, p, t)
    ensures Filter(Then(k, Then(p, t)).violations, OfType(Pattern)) == p.violations
  {
    Disjoint(k, {Keyword}, Pattern);
    Disjoint(t, TailTypes, Pattern);
    OnlyFrom(k, p, t, Pattern);
  }

  /** A violation of a tail type is reported exactly when the tail part reports it. */
  lemma TailFromThird(k: Analysis, p: Analysis, t: Analysis, w: Violation)
    requires ContentParts(k, p, t) && w.Type() in TailTypes
    ensures w in Then(k, Then(p, t)).violations <==> w in t.violations
  {
    Absent(k, {Keyword}, w);
    Absent(p, {Pattern}, w);
  }

  /** Of all content checks, only the keyword check reports keywords. */
  lemma ChecksKeywords(l: Listing, keywords: seq<string>, categories: seq<string>, patterns: seq<Pattern>)
    ensures Filter(ContentChecks(l, keywords, categories, patterns).violations, OfType(Keyword))
         == KeywordCheck(FullText(l), keywords).violations
  {
    ChecksParts(l, keywords, categories, patterns);
    KeywordsFromFirst(KeywordCheck(FullText(l), keywords), PatternCheck(FullText(l), patterns), TailCheck(l, categories));
  }

  /** Of all content checks, only the pattern check reports suspicious claims. */
  lemma ChecksPatterns(l: Listing, keywords: seq<string>, categories: seq<string>, patterns: seq<Pattern>)
    ensures Filter(ContentChecks(l, keywords, categories, patterns).violations, OfType(Pattern))
         == PatternCheck(FullText(l), patterns).violations
  {
    ChecksParts(l, keywords, categories, patterns);
    PatternsFromSecond(KeywordCheck(FullText(l), keywords), PatternCheck(FullText(l), patterns), TailCheck(l, categories));
  }

  /** What the tail part reports of the tail rules, all content checks report. */
  lemma TailThrough(k: Analysis, p: Analysis, t: Analysis, short: bool, long: bool, caps: bool, bang: bool, category: bool)
    requires ContentParts(k, p, t)
    requires TailReported(t.violations, short, long, caps, bang, category)
    ensures TailReported(Then(k, Then(p, t)).violations, short, long, caps, bang, category)
  {
    TailFromThird(k, p, t, TitleTooShort);
    TailFromThird(k, p, t, TitleTooLong);
    TailFromThird(k, p, t, ExcessiveCaps);
    TailFromThird(k, p, t, TooManyExclamations);
    TailFromThird(k, p, t, HighRiskCategory);
  }

  /** The tail rules in all content checks are those of the tail. */
  lemma ChecksTail(l: Listing, keywords: seq<string>, categories: seq<string>, patterns: seq<Pattern>)
    ensures TailFound(l, categories, ContentChecks(l, keywords, categories, patterns).violations)
  {
    ChecksParts(l, keywords, categories, patterns);
    TailCheckFound(l, categories);
    TailThrough(KeywordCheck(FullText(l), keywords), PatternCheck(FullText(l), patterns), TailCheck(l, categories),
                Utf16Length(l.title) < 20, Utf16Length(l.title) > 100, ShoutingTitle(l.title),
                CountChar(FullText(l), '!') > 3, RiskyCategory(l.category, categories));
  }

  // ------------------------------------------------------------------ the analyzer

  /** No keyword is listed twice, so none is reported twice. */
  lemma KeywordsDistinct()
    ensures Distinct(ForbiddenKeywords)
  {
    HealthDistinct();
    MisleadingDistinct();
    ProhibitedDistinct();
    BrandDistinct();
    DangerousDistinct();
    GroupsApart1();
    DistinctAppend(HealthClaims, MisleadingTerms);
    GroupsApart2();
    DistinctAppend(HealthClaims + MisleadingTerms, ProhibitedItems);
    GroupsApart3();
    DistinctAppend(HealthClaims + MisleadingTerms + ProhibitedItems, BrandTerms);
    GroupsApart4();
    DistinctAppend(HealthClaims + MisleadingTerms + ProhibitedItems + BrandTerms, DangerousProducts);
  }

  lemma HealthDistinct()
    ensures Distinct(HealthClaims)
  {
    var g := HealthClaims;
    DistinctCons(g[6..]); DistinctCons(g[5..]); DistinctCons(g[4..]); DistinctCons(g[3..]);
    DistinctCons(g[2..]); DistinctCons(g[1..]); DistinctCons(g[0..]);
  }

  lemma MisleadingDistinct()
    ensures Distinct(MisleadingTerms)
  {
    var g := MisleadingTerms;
    DistinctCons(g[5..]); DistinctCons(g[4..]); DistinctCons(g[3..]);
    DistinctCons(g[2..]); DistinctCons(g[1..]); DistinctCons(g[0..]);
  }

  lemma ProhibitedDistinct()
    ensures Distinct(ProhibitedItems)
  {
    var g := ProhibitedItems;
    DistinctCons(g[7..]); DistinctCons(g[6..]); DistinctCons(g[5..]); DistinctCons(g[4..]);
    DistinctCons(g[3..]); DistinctCons(g[2..]); DistinctCons(g[1..]); DistinctCons(g[0..]);
  }

  lemma BrandDistinct()
    ensures Distinct(BrandTerms)
  {
    var g := BrandTerms;
    DistinctCons(g[2..]); DistinctCons(g[1..]); DistinctCons(g[0..]);
  }

  lemma DangerousDistinct()
    ensures Distinct(DangerousProducts)
  {
    var g := DangerousProducts;
    DistinctCons(g[2..]); DistinctCons(g[1..]); DistinctCons(g[0..]);
  }

  lemma GroupsApart1()
    ensures forall x :: x in HealthClaims ==> x !in MisleadingTerms
  {
  }

  lemma GroupsApart2()
    ensures forall x :: x in HealthClaims + MisleadingTerms ==> x !in ProhibitedItems
  {
  }

  lemma GroupsApart3()
    ensures forall x :: x in HealthClaims + MisleadingTerms + ProhibitedItems ==> x !in BrandTerms
  {
    assert "genuine" + " brand name" == "genuine brand name";
    assert BrandTerms[2] == "genuine brand name";
  }

  lemma GroupsApart4()
    ensures forall x :: x in HealthClaims + MisleadingTerms + ProhibitedItems + BrandTerms ==> x !in DangerousProducts
  {
  }

  /** `'genuine' + ' brand name'` is one keyword: the compound is listed, `genuine` alone is not. */
  lemma CompoundKeyword()
    ensures "genuine brand name" in ForbiddenKeywords && "genuine" !in ForbiddenKeywords
  {
    assert ForbiddenKeywords[26] == "genuine brand name";
  }

  // ------------------------------------------------------------------ what the analyzer reports

  /** The content score is the worth of the reported violations, capped at 60; all are content violations. */
  lemma ContentScore(l: Listing, patterns: seq<Pattern>)
    ensures AnalyzeContentRisk(l, patterns).score == Min(Weight(AnalyzeContentRisk(l, patterns).violations), ContentCap)
    ensures TypesIn(AnalyzeContentRisk(l, patterns), ContentTypes)
  {
    ChecksPriced(l, ForbiddenKeywords, SuspiciousCategories, patterns);
  }

  /** Over a list without repeats, each keyword the text contains is reported once, and no other. */
  lemma ChecksKeywordOnce(l: Listing, keywords: seq<string>, categories: seq<string>, patterns: seq<Pattern>, k: string)
    requires Distinct(keywords)
    ensures multiset(ContentChecks(l, keywords, categories, patterns).violations)[ForbiddenKeyword(k)]
         == if k in keywords && Contains(FullText(l), Lower(k)) then 1 else 0
  {
    ChecksKeywords(l, keywords, categories, patterns);
    FilterMultiplicity(ContentChecks(l, keywords, categories, patterns).violations, OfType(Keyword), ForbiddenKeyword(k));
    KeywordMultiplicity(FullText(l), keywords, k);
    DistinctOnce(keywords, k);
  }

  /** A forbidden keyword the lowercased title and description contain is reported exactly once; any other keyword never. */
  lemma KeywordFindings(l: Listing, patterns: seq<Pattern>, k: string)
    ensures multiset(AnalyzeContentRisk(l, patterns).violations)[ForbiddenKeyword(k)]
         == if k in ForbiddenKeywords && Contains(FullText(l), Lower(k)) then 1 else 0
  {
    KeywordsDistinct();
    ChecksKeywordOnce(l, ForbiddenKeywords, SuspiciousCategories, patterns, k);
  }

  /** The keyword violations come in the order of the keyword list. */
  lemma KeywordFindingsInOrder(l: Listing, patterns: seq<Pattern>)
    ensures Filter(AnalyzeContentRisk(l, patterns).violations, OfType(Keyword))
         == KeywordViolations(Filter(ForbiddenKeywords, KeywordIn(FullText(l))))
  {
    ChecksKeywords(l, ForbiddenKeywords, SuspiciousCategories, patterns);
    KeywordOrder(FullText(l), ForbiddenKeywords);
  }

  /** Each matching pattern adds one suspicious-claim violation. */
  lemma PatternFindings(l: Listing, patterns: seq<Pattern>)
    ensures Filter(AnalyzeContentRisk(l, patterns).violations, OfType(Pattern))
         == Repeat(SuspiciousClaim, PatternHits(FullText(l), patterns))
  {
    ChecksPatterns(l, ForbiddenKeywords, SuspiciousCategories, patterns);
    PatternReports(FullText(l), patterns);
  }

  /** The title-length, capitalization, exclamation and category violations are reported exactly when their conditions hold. */
  lemma TailFindings(l: Listing, patterns: seq<Pattern>)
    ensures TailFound(l, SuspiciousCategories, AnalyzeContentRisk(l, patterns).violations)
  {
    ChecksTail(l, ForbiddenKeywords, SuspiciousCategories, patterns);
  }
}
