# ShieldSeller risk engine — a Dafny model

ShieldSeller scores TikTok Shop listings for policy risk. This project models
the core of that scoring and the helpers around it:

- **The risk engine** (`lib/sps-rules.ts`). Three analyzers score a listing:
  - content: forbidden keywords, suspicious-claim patterns, title length,
    capitals, exclamation marks and risky categories, capped at 60;
  - performance: return rate, rating, late shipments and shipping time, capped at 40;
  - compliance: description, price and image, capped at 30.

  `analyzeListingRisk` weighs the three as `1.2 c + 1.0 p + 0.8 m`, caps the
  sum at 100, rounds it to the risk score and cuts the unrounded value into
  five tiers at 30, 50, 70 and 85. The model follows these cut points; the
  four bands in the header comment of `lib/sps-rules.ts` (lines 7-11) agree
  with neither them nor the rounded score, and are not modelled.
  `generateFixSuggestions` renders the violations grouped by severity.
  `calculateShopRisk` averages risk scores, counting high listings twice and
  critical ones three times.
- **The rule-based fixer** `generateSimpleFix` (`lib/ai-fix.ts`). It replaces
  table words case-insensitively, re-cases a shouting title, and squeezes
  runs of `!` and `?`. It returns the change messages.
- **The computing helpers of `lib/utils.ts`**: `calculatePercentage`,
  `truncate`, `getRiskColor`, `getRiskBadgeColor`, `isValidEmail` and `parseCSV`.
- **The dashboard's summary cards** (`components/dashboard/RiskScoreCards.tsx`):
  the text, label and colour for the average score, and the dangerous and safe
  shares.

Every operation is a pure function on immutable data. JavaScript values are
modelled as follows:
- a number is an exact `real`;
- a string is a sequence of characters;
- an optional field is an `Option`, with JavaScript truthiness written out.

Two operations are also computed another way:
- the risk engine's weighted sum is also computed as IEEE doubles
  (module `FloatScore`, on the model of module `Doubles`);
- the CSV line reader is also written as the source's loop (`Csv.ParseLineLoop`).

Modules, in dependency order:
- Wrappers, Seqs, Strings, Rounding: generic support.
- RiskModel: the data model and check combinators.
- ContentRisk, PerformanceRisk, ComplianceRisk: the three analyzers.
- ListingRisk: the aggregation.
- Doubles, FloatScore: the double arithmetic.
- ShopRisk, FixSuggestions.
- Utils, Csv, ScoreCards, SimpleFix.

## Model

| member | source | states |
|---|---|---|
| Rounding.RoundHalfUp | lib/sps-rules.ts:374 | `Math.round` gives the integer in `(x - 0.5, x + 0.5]`: the nearest one, with a half rounded up |
| Rounding.RoundMonotone | lib/sps-rules.ts:374 | rounding never reverses the order of two values |
| Rounding.RoundWithin | lib/utils.ts:64 | a value between two integers rounds to an integer between them |
| Strings.Utf16Length | lib/sps-rules.ts:133 | the `.length` of a string lies between its character count and twice that |
| Strings.Utf16LengthBmp | lib/sps-rules.ts:133 | for text inside the Basic Multilingual Plane, `.length` is the character count |
| Strings.ContainsOccurs | lib/sps-rules.ts:106 | `includes` holds exactly when the text occurs at some position |
| Strings.TrimBlank | lib/utils.ts:163 | a line trims to empty exactly when every character is whitespace, which is when parseCSV skips it |
| Strings.TrimIdempotent | lib/utils.ts:175 | trimming a trimmed value changes nothing |
| Strings.JoinSplit | lib/utils.ts:159 | splitting the text at line feeds loses nothing: joining the pieces again gives the text back |
| Strings.SplitOn | lib/utils.ts:159 | `split` gives at least one piece, and no piece holds the separator |
| RiskModel.LevelOf | lib/sps-rules.ts:359-364 | the tier is safe exactly below 30 and critical exactly from 85 on |
| RiskModel.LevelMonotone | lib/sps-rules.ts:359-364 | a higher score never lands in a lower tier |
| RiskModel.WeightAppend | lib/sps-rules.ts:107-195 | the points of two runs of checks add up |
| RiskModel.WhenFinds | lib/sps-rules.ts:106-115 | a single rule reports its violation exactly when its condition holds, and nothing else |
| RiskModel.FirstOnly | lib/sps-rules.ts:98-196 | violations of a type only one check reports are exactly that check's report, in order |
| ContentRisk.AnalyzeContentRisk | lib/sps-rules.ts:98-196 | the content score never exceeds 60 |
| ContentRisk.ContentScore | lib/sps-rules.ts:98-196 | the content score is the points of the reported violations (15, 10, 5, 5, 8, 5, 12) capped at 60; every report is a content type |
| ContentRisk.KeywordFindings | lib/sps-rules.ts:57-116 | a listed keyword the lowercased `title + " " + description` contains is reported exactly once; any other keyword is never reported |
| ContentRisk.KeywordMember | lib/sps-rules.ts:105-116 | for any keyword list, a keyword is reported exactly when it is listed and contained |
| ContentRisk.KeywordMultiplicity | lib/sps-rules.ts:105-116 | a contained keyword is reported once for each time it is listed |
| ContentRisk.KeywordOrder | lib/sps-rules.ts:105-116 | the keyword violations are the contained keywords in list order |
| ContentRisk.KeywordFindingsInOrder | lib/sps-rules.ts:105-116 | in the analysis, the keyword violations follow the order of the engine's list |
| ContentRisk.KeywordsDistinct | lib/sps-rules.ts:57-75 | no keyword is listed twice |
| ContentRisk.CompoundKeyword | lib/sps-rules.ts:71 | `'genuine' + ' brand name'` is one keyword: "genuine brand name" is listed and "genuine" alone is not |
| ContentRisk.PatternReports | lib/sps-rules.ts:119-130 | one suspicious-claim violation per matching pattern, 10 points each |
| ContentRisk.PatternFindings | lib/sps-rules.ts:119-130 | in the analysis, the suspicious claims are one per matching pattern |
| ContentRisk.MentionsAnyExists | lib/sps-rules.ts:182-184 | `some(... includes ...)` holds exactly when some listed category occurs in the text |
| ContentRisk.RiskyCategoryMeans | lib/sps-rules.ts:182-184 | the category rule fires exactly for a present, non-empty category that, lowercased, contains a listed name |
| ContentRisk.TailReports | lib/sps-rules.ts:132-193 | each title-length, capitals, exclamation and category rule is reported exactly when its condition holds |
| ContentRisk.TailFindings | lib/sps-rules.ts:132-193 | in the analysis, those rules fire on their conditions: under 20 or over 100 UTF-16 units, over half capitals, over 3 `!`, a risky category |
| ContentRisk.ChecksKeywordOnce | lib/sps-rules.ts:105-116 | over any list without repeats, each contained keyword is reported exactly once |
| PerformanceRisk.AnalyzePerformanceRisk | lib/sps-rules.ts:201-276 | the performance score never exceeds 40 (its own claim; which violations it reports is stated by ReturnRateFindings, RatingFindings and ShippingFindings, and the score's value by PerformanceScore) |
| PerformanceRisk.PerformanceScore | lib/sps-rules.ts:201-276 | the performance score is the points of the reported violations capped at 40; every report is a performance type |
| PerformanceRisk.ReturnRateFindings | lib/sps-rules.ts:206-226 | a high return rate is reported exactly for a rate above 0.15, and an elevated one for a rate in (0.08, 0.15] |
| PerformanceRisk.RatingFindings | lib/sps-rules.ts:229-249 | a rating is judged only when non-zero with over 10 reviews: below 3.5 is low, and [3.5, 4.0) is below average |
| PerformanceRisk.ShippingFindings | lib/sps-rules.ts:252-273 | late shipments are reported exactly above 0.10, and slow shipping exactly above 7 days |
| PerformanceRisk.OneLevelEach | lib/sps-rules.ts:206-249 | the `else if` chains give at most one return-rate and one rating violation |
| PerformanceRisk.ReturnRateBands | lib/sps-rules.ts:206-226 | the return-rate check alone fires in its two bands |
| ComplianceRisk.AnalyzeComplianceRisk | lib/sps-rules.ts:281-335 | the compliance score never exceeds 30 (its own claim; which violations it reports is stated by ComplianceFindings, and the score's value by ComplianceScore) |
| ComplianceRisk.ComplianceScore | lib/sps-rules.ts:281-335 | the compliance score is the points of the reported violations capped at 30; every report is a compliance type |
| ComplianceRisk.ComplianceFindings | lib/sps-rules.ts:286-332 | the description, low-price, high-price and image rules fire exactly on their truthiness and threshold conditions |
| ComplianceRisk.PriceBandsExclusive | lib/sps-rules.ts:298-320 | no listing is flagged both for a low and for a high price |
| ListingRisk.Combine | lib/sps-rules.ts:351-382 | the factors are the three scores; the violations are content, then performance, then compliance; the tier is that of the exact weighted score; the risk score is it rounded, within 0..100 |
| ListingRisk.AnalyzeListingRisk | lib/sps-rules.ts:344-383 | the factors are the three analyzers' scores, within their caps; the risk score is the rounded weighted score; the tier comes from the unrounded one |
| ListingRisk.TenfoldIsWeighted | lib/sps-rules.ts:351-356 | ten times the weighted score is the even integer `min(12c + 10p + 8m, 1000)` |
| ListingRisk.RoundTenfold | lib/sps-rules.ts:374 | an even number of tenths is never a tie, and rounds to `(t + 5) / 10` |
| ListingRisk.CombineMonotone | lib/sps-rules.ts:351-374 | higher analyzer scores never give a lower risk score or tier |
| ListingRisk.TierBeforeRounding | lib/sps-rules.ts:351-374 | the tier is not a function of the risk score: content 18 and compliance 10 weigh 29.6, risk score 30 and tier safe, while content 25 weighs 30, risk score 30 and tier low |
| ListingRisk.ZeroScoreClean | lib/sps-rules.ts:195 | a capped analyzer scores 0 exactly when it reports nothing, and otherwise at least 5 |
| ListingRisk.CleanIffZero | lib/sps-rules.ts:344-383 | a listing's risk score is 0 exactly when no rule fires, and it is then safe |
| ListingRisk.ViolationsByType | lib/sps-rules.ts:367-371 | a violation of one analyzer's types is in the listing's violations exactly when that analyzer reports it |
| ListingRisk.ListingKeywordOnce | lib/sps-rules.ts:344-371 | in the whole analysis, a contained forbidden keyword appears exactly once, and any other keyword never |
| Doubles.RoundDouble | lib/sps-rules.ts:351-356 | a double operation's result is within half a unit in the last place of the exact one |
| Doubles.LiteralsRounded | lib/sps-rules.ts:352-354 | the literals `1.2` and `0.8` are the doubles 5404319552844595/2^52 and 3602879701896397/2^52 |
| FloatScore.SumAsWritten | lib/sps-rules.ts:351-356 | the left-to-right double sum is within 0.001 of the exact `1.2c + p + 0.8m` |
| FloatScore.AsWrittenRounds | lib/sps-rules.ts:351-374 | on doubles the risk score is the same as on exact values |
| FloatScore.AsWrittenTier | lib/sps-rules.ts:351-364 | on doubles the tier is the same, except for an exact score on a boundary, which drops one tier |
| FloatScore.AsWrittenTierDrops | lib/sps-rules.ts:351-364 | content 18, performance 22, compliance 8 (and 23, 8, 18) weigh exactly 50, a medium risk; the double sum is below 50, so the tier is low |
| ShopRisk.TierWeight | lib/sps-rules.ts:431-439 | a listing weighs 3 exactly when critical, 2 exactly when high, and otherwise 1 |
| ShopRisk.CalculateShopRisk | lib/sps-rules.ts:427-448 | no listings give 0 |
| ShopRisk.ShopRiskWithin | lib/sps-rules.ts:427-448 | the shop score lies between the lowest and highest risk score |
| ShopRisk.ShopRiskRange | lib/sps-rules.ts:427-448 | risk scores of 0..100 give a shop score of 0..100 |
| ShopRisk.ShopRiskUniform | lib/sps-rules.ts:427-448 | listings that all score `s` give a shop score of `s` |
| ShopRisk.ShopRiskIsMean | lib/sps-rules.ts:431-447 | the shop score is the rounded plain mean of the scores, each written out as often as its weight |
| ShopRisk.ExpandPlain | lib/sps-rules.ts:432-438 | without high or critical listings, each score counts once |
| FixSuggestions.GenerateFixSuggestions | lib/sps-rules.ts:388-422 | the text is the no-fixes sentence exactly when there are no violations |
| FixSuggestions.EveryViolationListed | lib/sps-rules.ts:395-419 | the listed entries are a permutation of the violations: each appears as often as it occurs |
| FixSuggestions.SectionItems | lib/sps-rules.ts:396-419 | a section lists exactly the violations of its severity, in their original order |
| FixSuggestions.SectionSeverity | lib/sps-rules.ts:396-419 | every entry of a section has that section's severity and is one of the violations |
| FixSuggestions.HeadingPresent | lib/sps-rules.ts:400-418 | a section heading appears exactly when some violation has its severity |
| FixSuggestions.SectionNumbering | lib/sps-rules.ts:402-404 | a present section opens with its heading, and its `j`-th entry is numbered `j + 1` |
| FixSuggestions.SeveritiesPartition | lib/sps-rules.ts:396-398 | splitting by the three severities loses and duplicates nothing |
| Utils.CalculatePercentage | lib/utils.ts:62-65 | 0 for a zero total; otherwise `value / total * 100` rounded, within half a point |
| Utils.PercentageWithin | lib/utils.ts:62-65 | a part of a positive total is 0..100 percent |
| Utils.PercentageMonotone | lib/utils.ts:62-65 | over a positive total, a larger value never gives a smaller percentage |
| Utils.PercentageEnds | lib/utils.ts:62-65 | the whole is 100 percent and nothing is 0 percent |
| Utils.SliceTo | lib/utils.ts:72 | `slice(0, n)` is a prefix: `n` characters for non-negative `n`, all but the last `-n` for negative `n` |
| Utils.Truncate | lib/utils.ts:70-73 | text that fits is returned unchanged; otherwise a prefix of it followed by "...", of length `length + 3` when `length` is non-negative |
| Utils.TruncateIdempotent | lib/utils.ts:70-73 | with a non-negative length, truncating twice is truncating once |
| Utils.TruncateNegative | lib/utils.ts:70-73 | a negative length `-k` keeps all but the last `k` characters |
| Utils.TruncateNegativeGrows | lib/utils.ts:70-73 | with a negative length, truncating again adds another dot |
| Utils.RiskColor | lib/utils.ts:97-102 | green, yellow and orange exactly for the safe, low and medium tiers; red for high and critical |
| Utils.RiskBadgeColor | lib/utils.ts:107-122 | the gray badge exactly for a name that is not a tier name |
| Utils.LevelNamesAreTiers | lib/utils.ts:107-122 | the names with a badge are exactly the names of the five tiers |
| Utils.BadgesDistinct | lib/utils.ts:107-122 | the five tiers get five different badges, none of them gray |
| Utils.IndexOf | lib/utils.ts:128 | the first position of a character, or the length when it is absent |
| Utils.EmailShapeIff | lib/utils.ts:127-130 | the scan accepts exactly the text `^[^\s@]+@[^\s@]+\.[^\s@]+$` matches |
| Utils.EmailAccepted | lib/utils.ts:127-130 | "a@b.c" and "a@.b.c" pass |
| Utils.EmailRejected | lib/utils.ts:127-130 | "a@b." and "@b.c" fail |
| Csv.ParseLineLoop | lib/utils.ts:165-182 | the character loop computes the trimmed fields of `Csv.ParseLine` |
| Csv.JoinRawFields | lib/utils.ts:169-182 | joining the untrimmed fields with commas gives the line without its quotes |
| Csv.NoQuotes | lib/utils.ts:172-173 | no field holds a double quote |
| Csv.UnquotedSplits | lib/utils.ts:169-182 | a line without quotes splits exactly at its commas |
| Csv.QuotedKeepsCommas | lib/utils.ts:172-178 | inside quotes, commas belong to the field |
| Csv.LineValues | lib/utils.ts:175-182 | every value is trimmed and free of quotes |
| Csv.SingleValue | lib/utils.ts:169-182 | a line without quotes or commas is one trimmed value |
| Csv.ParseCSV | lib/utils.ts:158-187 | every row has at least one value |
| Csv.FieldCount | lib/utils.ts:169-182 | the quote-aware split yields one field more than the commas met outside quotes |
| Csv.LineFieldCount | lib/utils.ts:169-182 | a parsed line has one value more than it has commas outside quotes |
| Csv.RowsOfText | lib/utils.ts:158-187 | the rows are the parsed non-blank lines, in order |
| Csv.RowsAreLines | lib/utils.ts:162-184 | one row per non-blank line, each the parse of that line |
| Csv.BlankText | lib/utils.ts:163 | text of whitespace only gives no rows |
| ScoreCards.RiskLevelText | components/dashboard/RiskScoreCards.tsx:201-207 | each sentence is given exactly for its tier of `LevelOf` |
| ScoreCards.LabelIsTierName | components/dashboard/RiskScoreCards.tsx:209-215 | the label is the tier's name in capitals, with " RISK" after the three middle tiers |
| ScoreCards.CardRiskColor | components/dashboard/RiskScoreCards.tsx:217-222 | red exactly for the high and critical tiers |
| ScoreCards.CardColorIsTextPart | components/dashboard/RiskScoreCards.tsx:217-222 | the card's colour is the text part of `getRiskColor` in `lib/utils.ts` |
| ScoreCards.DangerousPercentage | components/dashboard/RiskScoreCards.tsx:30-33 | with listings, a dangerous count that fits gives a share of 0..100 |
| ScoreCards.SafePercentage | components/dashboard/RiskScoreCards.tsx:108-110 | with listings, a safe count that fits gives a share of 0..100 |
| ScoreCards.SharesArePercentages | components/dashboard/RiskScoreCards.tsx:30-33 | both shares equal `calculatePercentage` on the counts |
| ScoreCards.DangerousShareRoundsAway | components/dashboard/RiskScoreCards.tsx:30-33 | no dangerous listings give 0; one dangerous listing in 201 also shows 0 |
| SimpleFix.MatchesFound | lib/ai-fix.ts:142-143 | the case-insensitive expression finds a match exactly when the text contains the word ignoring case |
| SimpleFix.ReplaceLength | lib/ai-fix.ts:144 | each replacement changes the length by the difference between the two words |
| SimpleFix.ReplaceNothing | lib/ai-fix.ts:144 | without a match the text is unchanged |
| SimpleFix.ReplacesInsideWords | lib/ai-fix.ts:130-144 | matches are not confined to whole words: "secure" becomes "sehelp with" |
| SimpleFix.TableUsable | lib/ai-fix.ts:127-138 | every table word is non-empty and differs in length from its replacement |
| SimpleFix.ApplyWord | lib/ai-fix.ts:141-151 | one entry keeps the earlier messages, and adds none exactly when the word is in neither field |
| SimpleFix.MessageIffChanged | lib/ai-fix.ts:143-150 | a field changes exactly when its "Replaced ... in title/description" message is added |
| SimpleFix.ReplaceChanges | lib/ai-fix.ts:143-149 | a replacement changes the text exactly when the word occurs in it |
| SimpleFix.WordsFound | lib/ai-fix.ts:141-151 | the table adds no message exactly when none of its words occurs, and then changes nothing |
| SimpleFix.Capitalize | lib/ai-fix.ts:155 | each character at the start of a word is capitalised and every other is kept |
| SimpleFix.RecasedTitle | lib/ai-fix.ts:154-155 | the recased title differs from the lowered one only by capitals at word starts |
| SimpleFix.ShoutingExample | lib/ai-fix.ts:154 | "MIRACLE CREAM" counts as shouting |
| SimpleFix.ReplacementStopsRecasing | lib/ai-fix.ts:141-157 | a title opening with a table word whose replacement starts lower case is no longer shouting |
| SimpleFix.SqueezeRunsOnly | lib/ai-fix.ts:160 | after the squeeze, no two of the character are adjacent |
| SimpleFix.SqueezeOthers | lib/ai-fix.ts:160 | the squeeze removes only copies of its character |
| SimpleFix.SqueezeKeeps | lib/ai-fix.ts:160 | text without a run is unchanged |
| SimpleFix.SqueezeIdempotent | lib/ai-fix.ts:160 | squeezing twice is squeezing once |
| SimpleFix.SqueezeRuns | lib/ai-fix.ts:160 | squeezing `?` does not create a run of `!` |
| SimpleFix.CleanHasNoRuns | lib/ai-fix.ts:160-161 | after the punctuation pass there is no `!!` and no `??` |
| SimpleFix.GenerateSimpleFix | lib/ai-fix.ts:117-177 | the originals are returned as given; at least one change message; no `!!` or `??` in either fixed text |
| SimpleFix.FixMessages | lib/ai-fix.ts:163-174 | only the default message, exactly when no table word occurs and the title is not shouting; otherwise "Cleaned up punctuation" comes last |
| SimpleFix.QuietFix | lib/ai-fix.ts:141-161 | without table words or shouting, only the punctuation changes |

## Left out

- Strings, characters: a string is a sequence of characters. Lengths that the rules compare (title length, description length, the shouting test) use `Strings.Utf16Length`, the UTF-16 count JavaScript's `.length` gives. Slicing (`truncate`: its `.length` test and `slice(0, length)`) indexes characters, not UTF-16 code units, so it differs from the source on text outside the Basic Multilingual Plane. The CSV model is exact on such text: the source's loop appends one code unit at a time, a surrogate half is never `"` or `,`, and neither `split('\n')` nor `trim()` touches surrogates, so every pair is rebuilt unchanged.
- Strings, case and whitespace: `toLowerCase`, `toUpperCase` and the `\w` / `\b` classes are modelled on ASCII letters only. `trim` and `\s` are modelled on space, tab, line feed, carriage return, vertical tab and form feed, without the other Unicode spaces.
- RiskModel.ToFixed1: computes `toFixed(1)` on the exact value. On doubles the result can differ in the last digit: for a return rate of 0.1535 the source prints "15.3", because the double product is 15.3499…, while the model prints "15.4". This affects only violation titles.
- ContentRisk.AnalyzeContentRisk: the six regular expressions of `HIGH_RISK_PATTERNS` are a parameter (`patterns`), each a test on the lowercased text. The model does not define their languages; the proofs hold for any tests.
- Utils.CalculatePercentage: works on exact rationals. On doubles, `(value / total) * 100` can land just below a half: 29/200 gives 14 in JavaScript and 15 here.
- ScoreCards.DangerousPercentage and ScoreCards.SafePercentage: same caveat as Utils.CalculatePercentage.
- ShopRisk.CalculateShopRisk: the quotient `weightedSum / totalWeight` is exact, not a double. The double quotient is the exact one correctly rounded, and the model does not prove that `Math.round` then gives the same integer.
- ListingRisk.Combine: takes its tier from the exact weighted score, not from the double sum. The double computation is modelled separately in `FloatScore`; see "## Findings".
- ListingRisk.AnalyzeListingRisk: takes its tier from the exact weighted score, through `ListingRisk.Combine`. The double computation is modelled separately in `FloatScore`; see "## Findings".
- Doubles.RoundDouble: covers zero and magnitudes in [0.5, 1024), the only ones the weighted sum produces.
- Unused inputs: `views` and `orders` of a listing are carried but read by no rule. `generateFixSuggestions` ignores its `listing` argument. `generateSimpleFix` ignores `violations`. The model takes none of these into account.
- Structure of the returned object: `generateSimpleFix`'s `success` and `isSimpleFix` flags are constants and are not modelled.
- Not modelled:
  - `lib/ai-fix.ts` above line 116: the call to an AI service (network I/O);
  - in `lib/utils.ts`, the formatting helpers `cn`, `formatCurrency`, `formatDate`, `formatRelativeTime` and `formatNumber` (locale and `Intl` formatting, floating-point output);
  - in `lib/utils.ts`, `generateRandomString` (randomness), `sleep` (timers) and `getGreeting` (clock);
  - the React markup of `RiskScoreCards.tsx`, apart from the values it computes.

## Findings

| source | as written | input that shows it | evidently intended | confidence | as-written member | corrected member |
|---|---|---|---|---|---|---|
| lib/sps-rules.ts:351-364 | The tier is taken from the double `c * 1.2 + p * 1.0 + m * 0.8`, which can fall just below a boundary the exact sum reaches | Sub-scores content 18, performance 22, compliance 8 weigh exactly 50 (medium). The double sum is 49.99999999999999, so the tier is low. Content 23, performance 8, compliance 18 behave the same way | The tier of the exact weighted score `1.2 c + p + 0.8 m`, so that a score of exactly 50 is medium, as the cut points `< 50` / `< 70` say | medium, not executed | FloatScore.AsWrittenTierDrops | ListingRisk.Combine |
