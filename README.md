# Plum Blossom (梅花易數) casting and derivation — a Dafny model

This project models the deterministic core of a Plum Blossom Yi Jing divination
application: how a hexagram is cast and what is derived from it.

- **Casting engine** (`js/hexagram-engine.js`, module `HexagramEngine`):
  - time casting (年+月+日 for the upper trigram, plus 時 for the lower trigram and the moving line);
  - number casting;
  - remainder 0 remapped to 8 or 6;
  - the six-line pattern of two stacked trigrams, where index 0 is line 6;
  - the mutual hexagram (互卦) and the changed hexagram (變卦);
  - body/use (體/用) selection and the five-element relation;
  - catalog lookups that fall back to `"000"`, `0` or nothing.
- **Text casting** (`js/stroke-calculator.js`, module `StrokeCalculation`). A class
  holds the stroke exception table. Its loop counts non-blank characters and sums
  their strokes, with 0 counted as 1 in the total. The text is then split into an
  upper and a lower part.
- **Binary-string helpers and classifiers** (`src/utils/plumBlossom.js`, module `PlumBlossom`):
  - number to a six-line string;
  - multi-line change, overlapping (互) and hidden (伏) hexagrams;
  - the seed-driven choice of distinct changing lines;
  - the main-hexagram index in 1..64;
  - trigram-info decoration;
  - the element, family and temperament tables.
- **Interpretation** (`src/utils/hexagramInterpretation.js`, module `HexagramInterpretation`):
  - the range-checked lookup of a decorated hexagram;
  - that file's own copies of the three classifiers.
- **Record decoration** (`src/utils/enhanceHexagramData.js`, module `EnhanceHexagramData`):
  each hexagram record gets its two trigrams' descriptions, their combination and its line summaries.

`Common` holds Option/Result, JavaScript's `indexOf`/`find`, JavaScript's truncating `%`
and substring helpers. `Records` holds the record shapes of the data file.

The trigram table of the data file is supplied as data. `StandardTable` describes the
layout of the application's own table:

| number | name | pattern |
|---|---|---|
| 1 | 乾 | 111 |
| 2 | 兌 | 011 |
| 3 | 離 | 101 |
| 4 | 震 | 001 |
| 5 | 巽 | 110 |
| 6 | 坎 | 010 |
| 7 | 艮 | 100 |
| 8 | 坤 | 000 |

`WellFormedTrigrams` states what the derivation lemmas need of any such table.

Imperative source code is modelled as methods, each proved against a specification function:
- `CalculateTimeHexagram`, `CalculateNumberHexagram` and `ProcessHexagramResult` (local `let`s);
- the engine's `GenerateChangedHexagram` (an array flipped in place);
- `StrokeCalculator.CalculateTextHexagram` (accumulating loops);
- `PlumBlossom.GenerateChangedHexagram` and `GenerateHiddenHexagram` (strings built by `+=`);
- `DetermineChangingLines` (a `for` with a de-duplicating `while`).

## Model

| member | source | states |
|---|---|---|
| HexagramEngine.GetBranchNumber | js/hexagram-engine.js:31-34 | the result is in 0..12. It is 0 exactly when the argument is not one of the twelve earthly branches. Otherwise the branch sits at position result−1 of 子…亥 |
| HexagramEngine.Remap | js/hexagram-engine.js:45-54 | for a non-negative sum the remapped remainder lies in 1..m. It equals m exactly when the sum is divisible by m, and otherwise equals the remainder. A negative sum gives JavaScript's negative remainder |
| HexagramEngine.TimeCast | js/hexagram-engine.js:43-57 | for non-negative dates: upper and lower trigrams in 1..8, moving line in 1..6. Each is congruent to year+month+day, or that sum plus the hour, modulo 8 or 6 |
| HexagramEngine.NumberCast | js/hexagram-engine.js:65-76 | upper ≡ num1, lower ≡ num2 (mod 8), moving line ≡ total (mod 6), each in range for non-negative input |
| HexagramEngine.AllRemappedNumberCast | js/hexagram-engine.js:65-73 | (9, 9, 6) casts upper 1, lower 1, moving line 6 |
| HexagramEngine.GetTrigramBinary | js/hexagram-engine.js:217-220 | the pattern of the first trigram with that number (no earlier entry has the number), or "000" when none has it |
| HexagramEngine.GetTrigramNumberByBinary | js/hexagram-engine.js:222-225 | the number of the first trigram with that pattern (no earlier entry has the pattern), or 0 when none has it |
| HexagramEngine.TrigramNumberRoundTrip | js/hexagram-engine.js:217-225 | on a well-formed table, number → pattern → number is the identity on 1..8 |
| HexagramEngine.TrigramBinaryRoundTrip | js/hexagram-engine.js:217-225 | on a well-formed table, every three-line pattern names a trigram in 1..8, and pattern → number → pattern is the identity |
| HexagramEngine.TrigramFallbacks | js/hexagram-engine.js:217-225 | an unknown number silently reads as "000" (坤's pattern), and an unknown pattern as number 0 |
| HexagramEngine.TrigramBinaryInjective | js/hexagram-engine.js:217-220 | different trigram numbers have different patterns |
| HexagramEngine.StandardTableFacts | js/hexagram-engine.js:10-13 | the application's trigram table (乾 111 … 坤 000) is well formed, and lookups in it give the standard patterns |
| HexagramEngine.GetHexagramByTrigrams | js/hexagram-engine.js:114-119 | nothing exactly when no record has that upper/lower pair; otherwise the first record that has it |
| HexagramEngine.LookupInCompleteCatalog | js/hexagram-engine.js:114-119 | in a complete, consistent catalog every pair of trigrams is found, and the record's pattern is the two trigrams' patterns stacked |
| HexagramEngine.FullPattern | js/hexagram-engine.js:140-160 | the upper trigram's pattern then the lower's: six lines, all '0'/'1' in a well-formed table |
| HexagramEngine.MutualTrigrams | js/hexagram-engine.js:139-185 | in a well-formed table both mutual trigrams are in 1..8; the upper one's pattern is lines 5-4-3 (indices 1..4) of the stacked pattern, and the lower one's is lines 4-3-2 (indices 2..5) |
| HexagramEngine.GenerateMutualHexagram | js/hexagram-engine.js:139-185 | the lookup of the mutual trigram pair: nothing exactly when no record has it, otherwise the first catalog record with that upper and lower trigram |
| HexagramEngine.MutualIgnoresOuterLines | js/hexagram-engine.js:160-184 | the top and bottom lines never affect the mutual hexagram |
| HexagramEngine.MutualFound | js/hexagram-engine.js:139-185 | with a well-formed table and a complete catalog the mutual hexagram is always found |
| HexagramEngine.FlipLine | js/hexagram-engine.js:194-207 | the length is kept, and exactly index 6−movingLine changes ('1' ↔ not '1') |
| HexagramEngine.FlipLineTwice | js/hexagram-engine.js:194-207 | flipping the same line twice restores a '0'/'1' pattern |
| HexagramEngine.ChangedTrigrams | js/hexagram-engine.js:191-213 | in a well-formed table both changed trigrams are in 1..8, and stacked they give the original pattern with the moving line flipped |
| HexagramEngine.GenerateChangedHexagram | js/hexagram-engine.js:191-215 | the array flipped in place gives the record of the two trigrams read back from the stacked pattern with the moving line flipped |
| HexagramEngine.ChangedFlipsMovingLineOnly | js/hexagram-engine.js:194-213 | the changed pattern is the original with only the moving line flipped. The trigram not holding the moving line keeps its number |
| HexagramEngine.ChangedTwiceRestores | js/hexagram-engine.js:191-215 | changing the changed hexagram at the same line gives back the original trigrams |
| HexagramEngine.ChangedFound | js/hexagram-engine.js:191-215 | with a well-formed table and a complete catalog the changed hexagram is always found |
| HexagramEngine.AnalyzeRelation | js/hexagram-engine.js:230-252 | the relation is 比和 exactly when the two elements are equal |
| HexagramEngine.AnalyzeRelationMatchesCycles | js/hexagram-engine.js:230-252 | for two of the five elements the relation is the one the generating and overcoming cycles give, in the source's priority order, and never 未知關係 |
| HexagramEngine.TrigramRelationKnown | js/hexagram-engine.js:14-23 | the elements of any two trigrams 1..8 have a known relation |
| HexagramEngine.Analyze | js/hexagram-engine.js:90-95 | a moving line above 3 makes the upper trigram 用 and the lower 體; otherwise the reverse. Each element is the trigram's five-element entry |
| HexagramEngine.AnalysisKnown | js/hexagram-engine.js:81-109 | a cast of two table trigrams always gets a known relation |
| HexagramEngine.ProcessHexagramResult | js/hexagram-engine.js:81-109 | the result gathers the original, mutual and changed records, the moving line and the analysis |
| HexagramEngine.ResultComplete | js/hexagram-engine.js:81-109 | with a well-formed table and a complete catalog, all three hexagrams of a result are present |
| HexagramEngine.CalculateTimeHexagram | js/hexagram-engine.js:43-57 | the method's result is the processed time cast |
| HexagramEngine.CalculateNumberHexagram | js/hexagram-engine.js:65-76 | the method's result is the processed number cast |
| HexagramEngine.PlumBlossomWatchingCast | js/hexagram-engine.js:43-57 | (5, 12, 17, 9) casts upper 2, lower 3, moving line 1, mutual 1 over 5 and changed 2 over 7 |
| HexagramEngine.PeonyCast | js/hexagram-engine.js:43-57 | (6, 3, 16, 4) casts upper 1, lower 5, moving line 5, mutual 1 over 1 and changed 3 over 5 |
| HexagramEngine.ExampleRelations | js/hexagram-engine.js:230-252 | in both worked examples the use trigram overcomes the body trigram |
| StrokeCalculation.StrokeCount | js/stroke-calculator.js:25-43 | a non-empty character with a non-zero table entry gets that entry. The empty string, a missing entry and an entry of 0 get 0 |
| StrokeCalculation.CharCountAppend | js/stroke-calculator.js:71-81 | the count of non-blank characters is additive over concatenation |
| StrokeCalculation.TotalStrokesAppend | js/stroke-calculator.js:71-81 | the weighted stroke total is additive over concatenation |
| StrokeCalculation.BlankIgnored | js/stroke-calculator.js:71-72 | a character whose trim() is empty changes neither the count nor the total |
| StrokeCalculation.TotalAtLeastCount | js/stroke-calculator.js:73-80 | each counted character adds at least 1 to the total (0 counts as 1) |
| StrokeCalculation.TextCast | js/stroke-calculator.js:67-129 | totalNum is the weighted stroke total plus the hour, whatever the split. With one counted character, lowerNum = upperNum + hour = totalNum. With two counted characters, upperNum and lowerNum are the stroke counts of the characters at raw positions 0 and 1, with no 0-to-1 substitution. With three or more, k is half the count rounded down: upperNum is the raw strokes of the first k characters and lowerNum those of all the rest |
| StrokeCalculation.RawIsTotalOnPositiveText | js/stroke-calculator.js:71-81 | on text with no blank and a positive count for every character, every character is counted and the raw strokes equal the weighted total |
| StrokeCalculation.TwoCharactersOnPositiveText | js/stroke-calculator.js:96-127 | on such text of two characters, the upper part is the first character's strokes and the lower part the second's, and upperNum + lowerNum + hour = totalNum |
| StrokeCalculation.PartsMakeTotalOnPositiveText | js/stroke-calculator.js:99-127 | on such text of three or more characters, upperNum is the weighted strokes of the first half (rounded down) and lowerNum those of the rest, so the upper part never has more characters; upperNum + lowerNum + hour = totalNum |
| StrokeCalculation.ThreeCharactersOnPositiveText | js/stroke-calculator.js:85-106 | on such text of three characters, the first makes upperNum and the last two make lowerNum |
| StrokeCalculation.TwoCharactersByPosition | js/stroke-calculator.js:96-98 | an example of the two-character rule: on a blank followed by two characters, the blank's count becomes the upper part and the last character is dropped |
| StrokeCalculation.SplitCoversText | js/stroke-calculator.js:99-107 | otherwise the raw prefix that makes upperNum is no longer than the rest that makes lowerNum and holds no more counted characters, and upperNum + lowerNum is every raw stroke |
| StrokeCalculation.OutputsNonNegative | js/stroke-calculator.js:67-129 | a non-negative table and hour give non-negative outputs |
| StrokeCalculation.StrokeCalculator.constructor | js/stroke-calculator.js:7-19 | the exception table is the given map, or empty when there is none. The radical corrections are the six fixed entries |
| StrokeCalculation.StrokeCalculator.SetExceptions | js/app.js:20-24 | assigning the `exceptions` field after construction: the new table replaces the old one |
| StrokeCalculation.StrokeCalculator.CalculateTextHexagram | js/stroke-calculator.js:67-129 | the three loops compute exactly the text cast of the current exception table |
| PlumBlossom.ToBinary | src/utils/plumBlossom.js:7 | `toString(2)` of a non-negative number is a '0'/'1' numeral of that value |
| PlumBlossom.PadStart | src/utils/plumBlossom.js:7 | `padStart` keeps the string as its suffix, adds only '0's and reaches the width |
| PlumBlossom.GenerateHexagram | src/utils/plumBlossom.js:6-9 | a non-negative n gives a '0'/'1' string of value n, as long as its binary numeral or six lines if that is shorter |
| PlumBlossom.GenerateHexagramValue | src/utils/plumBlossom.js:6-9 | a non-negative n gives a '0'/'1' string of value n. It is six lines long exactly when 0 ≤ n < 64 |
| PlumBlossom.GenerateHexagramRoundTrip | src/utils/plumBlossom.js:6-9 | every six-line pattern is generated by its own value |
| PlumBlossom.GenerateHexagramInjective | src/utils/plumBlossom.js:6-9 | different numbers below 64 give different patterns |
| PlumBlossom.Changed | src/utils/plumBlossom.js:30-47 | the length is kept. Index i changes exactly when length−i is a changing line, and a changed '0' becomes '1' and anything else '0'. No line list or an empty one leaves the input as it is |
| PlumBlossom.GenerateChangedHexagram | src/utils/plumBlossom.js:30-47 | the loop builds exactly the changed string |
| PlumBlossom.ChangedTwice | src/utils/plumBlossom.js:35-46 | on '0'/'1' strings, changing twice with the same lines is the identity |
| PlumBlossom.ChangedAgreesWithEngineFlip | src/utils/plumBlossom.js:36-45 | with the single line m it agrees with the engine's flip of index 6−m |
| PlumBlossom.Complement | src/utils/plumBlossom.js:60-66 | the length is kept, and '0' becomes '1' and anything else '0' |
| PlumBlossom.GenerateHiddenHexagram | src/utils/plumBlossom.js:60-66 | the loop builds exactly the complement |
| PlumBlossom.ComplementTwice | src/utils/plumBlossom.js:60-66 | on '0'/'1' strings the hidden hexagram of the hidden hexagram is the original |
| PlumBlossom.ComplementValue | src/utils/plumBlossom.js:60-66 | a pattern's value and its complement's add up to 2^length − 1 |
| PlumBlossom.ComplementChangesEveryLine | src/utils/plumBlossom.js:30-66 | the hidden hexagram is the changed hexagram with all six lines changing |
| PlumBlossom.OverlappingAsWritten | src/utils/plumBlossom.js:50-57 | as written, the upper part is indices 3..6 (the original lower trigram) and the lower part is indices 2..5 |
| PlumBlossom.OverlappingAsWrittenDiffers | src/utils/plumBlossom.js:50-57 | on 111000 the code gives 000100, where the overlapping hexagram is 110100 |
| PlumBlossom.Overlapping | src/utils/plumBlossom.js:49-57 | the intended overlapping hexagram: the upper part is indices 1..4 (lines 5-4-3) and the lower part is indices 2..5 (lines 4-3-2) |
| PlumBlossom.OverlappingIsEngineMutual | src/utils/plumBlossom.js:49-57 | the corrected overlapping hexagram of a stacked pattern is the pattern of the engine's mutual trigrams |
| PlumBlossom.FindHexagramByBinary | src/utils/plumBlossom.js:69-71 | nothing exactly when no record has the pattern; otherwise the first record that has it |
| PlumBlossom.CalculateMainHexagram | src/utils/plumBlossom.js:74-82 | for a non-negative time the index lies in 1..64 and is congruent to question length + time modulo 64 |
| PlumBlossom.PickedLinesDistinct | src/utils/plumBlossom.js:96-106 | the de-duplicating loop picks up to three distinct lines, each in 1..6 |
| PlumBlossom.CandidatesNeverClash | src/utils/plumBlossom.js:96-106 | the first proposals seed·(i+1) mod 6 + 1 never clash, so the `while` never moves a line |
| PlumBlossom.SortAscendingSorts | src/utils/plumBlossom.js:108 | the numeric sort returns an ascending permutation of its input |
| PlumBlossom.ChangingLinesWellFormed | src/utils/plumBlossom.js:85-109 | seed mod 3 + 1 lines, each in 1..6, strictly ascending, a permutation of the lines picked |
| PlumBlossom.DetermineChangingLines | src/utils/plumBlossom.js:85-109 | the loops return the changing lines of seed = seconds + milliseconds + question length: seed mod 3 + 1 distinct lines in 1..6, in ascending order |
| PlumBlossom.EnhanceHexagramWithTrigramInfo | src/utils/plumBlossom.js:188-289 | no hexagram gives nothing. The record is decorated exactly when both trigram numbers index the table. The decoration carries the full descriptions of the named trigrams, their bottom-then-top combination and a summary for exactly the lines present; otherwise the record is returned plain |
| PlumBlossom.DecorationsAgree | src/utils/plumBlossom.js:188-289 | where the dataset decorator succeeds, this one gives the same record plus each trigram's animal and body |
| PlumBlossom.AnalyzeElements | src/utils/plumBlossom.js:309-343 | equal elements give the harmony sentence; a different pair in the table gives its entry; a pair missing from the table gives the fallback |
| PlumBlossom.ElementRelationsFollowCycles | src/utils/plumBlossom.js:314-340 | every ordered pair of the five elements is in the table, and its entry is the phrase the generating and overcoming cycles dictate |
| PlumBlossom.AnalyzeElementsFollowsCycles | src/utils/plumBlossom.js:309-343 | for two different elements the answer is the cycles' phrase |
| PlumBlossom.SimplifyFamily | src/utils/plumBlossom.js:348-355 | the keywords are checked in order: 父 gives 父; else 母 or 女 gives 母; else 長男 gives 兄; else 中男 or 少男 gives 弟; else 子 gives 子. A term with none of them is kept |
| PlumBlossom.TrigramFamilyTerms | src/utils/plumBlossom.js:348-355 | on the eight trigram family terms: 父 and 母 stay, 長男 gives 兄, 中男 and 少男 give 弟, and all three daughters give 母 |
| PlumBlossom.SimplifyFamilyIdempotent | src/utils/plumBlossom.js:348-355 | simplifying twice equals simplifying once |
| PlumBlossom.ShortTermsAreFixed | src/utils/plumBlossom.js:348-355 | the five short terms simplify to themselves |
| PlumBlossom.AnalyzeFamilyRelation | src/utils/plumBlossom.js:346-389 | a pair of simplified terms in the table gives its entry; a pair missing from it gives the fallback |
| PlumBlossom.FamilyRelationsCoverShortTerms | src/utils/plumBlossom.js:360-386 | every ordered pair of short terms is in the family table |
| PlumBlossom.FamilyKnownForKinshipTerms | src/utils/plumBlossom.js:346-389 | two terms with kinship keywords never get the fallback |
| PlumBlossom.AnalyzeTemperament | src/utils/plumBlossom.js:392-426 | equal temperaments give the resonance sentence; a different pair in the table gives its entry; a pair missing from the table gives the fallback |
| PlumBlossom.TemperamentPairsFollowWords | src/utils/plumBlossom.js:397-423 | every ordered pair of the five temperaments is in the table, with the phrase "<first word>而<second word>", or "<word>無比" for a doubled temperament |
| PlumBlossom.AnalyzeTemperamentByWords | src/utils/plumBlossom.js:392-426 | two different temperaments get the phrase built from their two words |
| HexagramInterpretation.GetHexagramInterpretation | src/utils/hexagramInterpretation.js:16-53 | a number outside 1..64 is an error. A number without an entry is the not-found error. Otherwise all eleven fields of the entry are copied unchanged: number, name, character, pattern, both trigram descriptions, combined attributes, text, description, key line texts and all lines |
| HexagramInterpretation.InterpretationOfDataset | src/utils/hexagramInterpretation.js:9-52 | in a decorated catalog, hexagram n is record n−1 of the dataset, with the descriptions of the trigrams it names and its own line summaries |
| HexagramInterpretation.AnalyzeElementsAsWritten | src/utils/hexagramInterpretation.js:78-112 | this file's table as written: equal elements give the harmony sentence; a different pair in the table gives its entry; a missing pair gives the fallback |
| HexagramInterpretation.ElementTableAsWrittenAnswers | src/utils/hexagramInterpretation.js:89-98 | as written, 火木, 火金, 火水, 土火 and 土水 answer 火剋金, 火被水剋, 火剋水, 土剋水 and 水剋火 |
| HexagramInterpretation.ElementTableAsWrittenMisstates | src/utils/hexagramInterpretation.js:89-98 | none of those five phrases is a true relation of its pair |
| HexagramInterpretation.AnalyzeElements | src/utils/hexagramInterpretation.js:78-112 | the corrected table: equal elements give the harmony sentence; a different pair in the table gives its entry; a missing pair gives the fallback |
| HexagramInterpretation.CorrectedTableKeys | src/utils/hexagramInterpretation.js:83-109 | the corrected table has the same keys as the other copy's table |
| HexagramInterpretation.AnalyzeElementsStatesTrueRelations | src/utils/hexagramInterpretation.js:78-112 | with the corrected table, every pair of different elements gets a phrase stating their true relation |
| HexagramInterpretation.SimplifyFamily | src/utils/hexagramInterpretation.js:157-164 | the keywords are checked in order: 父 gives 父; else 母 or 女 gives 母; else 長男 gives 兄; else 中男 or 少男 gives 弟; else 子 gives 子. A term with none of them is kept |
| HexagramInterpretation.AnalyzeFamilyRelation | src/utils/hexagramInterpretation.js:118-151 | a pair of simplified terms in the table gives its entry; a pair missing from it gives the fallback |
| HexagramInterpretation.FamilyCopiesAgree | src/utils/hexagramInterpretation.js:118-164 | this file's simplifyFamily and family classifier answer as the other copy does on every input |
| HexagramInterpretation.AnalyzeTemperament | src/utils/hexagramInterpretation.js:170-199 | equal temperaments give the resonance sentence; a different pair in the table gives its entry; a pair missing from the table gives the fallback |
| HexagramInterpretation.TemperamentCopiesAgree | src/utils/hexagramInterpretation.js:170-199 | on one-character temperaments this copy answers as the other copy does |
| EnhanceHexagramData.GetYaoCombination | src/utils/enhanceHexagramData.js:54-101 | entry k (初…上, 用) is absent exactly when line k is absent. A present entry carries the line's text and its description text, or [] when there is none |
| EnhanceHexagramData.EnhanceHexagram | src/utils/enhanceHexagramData.js:11-45 | a record is decorated exactly when both trigram numbers index the table and it has lines. It keeps the whole record and the seven description fields of each named trigram. Its combined nature, family and element are bottom then top, and it gets the line summaries |
| EnhanceHexagramData.EnhanceAll | src/utils/enhanceHexagramData.js:11-45 | the map succeeds exactly when every record can be decorated; the output then has the same length and order |
| EnhanceHexagramData.EnhanceHexagramData | src/utils/enhanceHexagramData.js:6-47 | the trigram table is copied, and the decorated catalog has the original records underneath, in order |

## Left out

- The user interface, the LLM and network clients, the service worker and the lunar-calendar conversion are not part of this model. They are rendering, I/O and foreign calls.
- `saveToLocalStorage` and `getHistoryFromLocalStorage` (src/utils/plumBlossom.js:158-185) are not part of this model. They are browser storage.
- `generateHexagramByTime` (src/utils/plumBlossom.js:12-27) is left out because it is only a clock read.
- `divination()` (src/utils/plumBlossom.js:112-155) is left out because it orchestrates clock reads and storage writes. Its parts are modelled.
- Clock readings are parameters: `now` of CalculateMainHexagram, and `seconds` and `milliseconds` of DetermineChangingLines.
- `analyzeTrigramInteraction` and `getTrigramInteraction` (src/utils/plumBlossom.js:292-306, src/utils/hexagramInterpretation.js:60-72) are left out. They are free-text templates whose only content is the three classifiers, and those are modelled.
- `enhancedData`, computed once at module load (src/utils/hexagramInterpretation.js:9), is a parameter of GetHexagramInterpretation.
- A thrown error is an `Err` or `None` result, not an exception. Where the decorator throws on a missing trigram or missing lines, EnhanceHexagram returns `None`. Error message texts are not modelled.
- `console.warn` calls are not modelled.
- Text is a sequence of single characters. UTF-16 surrogate pairs, where `for…of` and `text[i]` disagree, are not modelled.
- `radicalCorrections` is set by the constructor but is never read, so no operation uses it.
- Table lookups by a key such as `"constructor"` that JavaScript resolves through the object prototype are not modelled. A key missing from a table is simply missing.
- `generateHexagram` on non-integer or non-finite numbers is not modelled, because `toString(2)` of such a number gives a fraction or a word. Negative integers are modelled: they give a '-' sign.
- HexagramEngine: the mutual and changed hexagrams require every trigram pattern in the table to be three characters long (`ThreeLinePatterns`). The data file's table is, and the slicing is undefined otherwise.
- PlumBlossom.DetermineChangingLines: requires non-negative clock readings, as the clock gives.
- PlumBlossom.CalculateMainHexagram: the range and congruence are stated for a non-negative time only, as the clock gives.

## Findings

| source | as written | input that shows it | evidently intended | confidence | as-written member | corrected member |
|---|---|---|---|---|---|---|
| src/utils/plumBlossom.js:50-57 | the overlapping hexagram's upper part is `substr(3, 3)`, i.e. lines 3-2-1 | "111000" gives "000100" | upper part `substr(1, 3)` (lines 5-4-3, as the comment and the engine's mutual hexagram say), giving "110100" | not executed | PlumBlossom.OverlappingAsWritten, PlumBlossom.OverlappingAsWrittenDiffers | PlumBlossom.Overlapping, PlumBlossom.OverlappingIsEngineMutual |
| src/utils/hexagramInterpretation.js:89-98 | the element table answers 火木 with 火剋金, 火金 with 火被水剋, 火水 with 火剋水, 土火 with 土剋水 and 土水 with 水剋火 | bottom 火, top 木 gives "火剋金" | the true relations, as in src/utils/plumBlossom.js:309-343: 火被木生, 火剋金, 火被水剋, 土被火生, 土剋水 | not executed | HexagramInterpretation.ElementTableAsWrittenAnswers, HexagramInterpretation.ElementTableAsWrittenMisstates | HexagramInterpretation.AnalyzeElements, HexagramInterpretation.AnalyzeElementsStatesTrueRelations |
