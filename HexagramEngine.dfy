/** The casting and derivation engine of js/hexagram-engine.js: time and number
    casting, the original / mutual (互) / changed (變) hexagrams, and the
    body/use (體/用) five-element analysis.

    A hexagram's six lines are a string of '0' (yin) and '1' (yang); index 0 is
    the top line (line 6) and index 5 the bottom line (line 1). The engine reads
    the trigram table and the hexagram catalog from its loaded dataset, so both
    are parameters here. */
module HexagramEngine {
  import opened Common
  import opened Records

  // ---------------------------------------------------------------------------
  // Constant tables
  // ---------------------------------------------------------------------------

  const EarthlyBranches: seq<string> :=
    ["子", "丑", "寅", "卯", "辰", "巳", "午", "未", "申", "酉", "戌", "亥"]

  const FiveElements: map<int, string> :=
    map[1 := "金", 2 := "金", 3 := "火", 4 := "木", 5 := "木", 6 := "水", 7 := "土", 8 := "土"]

  /** 金生水，水生木，木生火，火生土，土生金 */
  const Generating: map<string, string> :=
    map["金" := "水", "水" := "木", "木" := "火", "火" := "土", "土" := "金"]

  /** 金剋木，木剋土，土剋水，水剋火，火剋金 */
  const Overcoming: map<string, string> :=
    map["金" := "木", "木" := "土", "土" := "水", "水" := "火", "火" := "金"]

  const Harmonious := "比和 (吉)"
  const BodyGeneratesUse := "體生用 (凶)"
  const UseGeneratesBody := "用生體 (大吉)"
  const BodyOvercomesUse := "體剋用 (小吉)"
  const UseOvercomesBody := "用剋體 (大凶)"
  const UnknownRelation := "未知關係"

  // ---------------------------------------------------------------------------
  // Earthly branches and casting arithmetic
  // ---------------------------------------------------------------------------

  /** getBranchNumber: position (1..12) of the branch among the twelve, 0 if it is none of them. */
  function GetBranchNumber(branch: string): (r: int)
    ensures 0 <= r <= 12
    ensures r == 0 <==> branch !in EarthlyBranches
    ensures r > 0 ==> EarthlyBranches[r - 1] == branch
  {
    var index := FindIndex(EarthlyBranches, b => b == branch);
    if index != -1 then index + 1 else 0
  }

  /** `v % m` with a remainder of 0 replaced by `m`. */
  function Remap(v: int, m: int): (r: int)
    requires m > 0
    ensures v >= 0 ==> 1 <= r <= m && (r == m <==> v % m == 0) && (r < m ==> r == v % m)
    ensures v < 0 ==> -m < r < 0 || r == m
  {
    var x := JsRem(v, m);
    if x == 0 then m else x
  }

  /** The three numbers a casting produces. */
  datatype Cast = Cast(upper: int, lower: int, movingLine: int)

  /** What calculateTimeHexagram computes before building the result. */
  function TimeCast(year: int, month: int, day: int, hour: int): (c: Cast)
    ensures year + month + day >= 0 ==>
              1 <= c.upper <= 8 && c.upper % 8 == (year + month + day) % 8
    ensures year + month + day + hour >= 0 ==>
              1 <= c.lower <= 8 && c.lower % 8 == (year + month + day + hour) % 8 &&
              1 <= c.movingLine <= 6 && c.movingLine % 6 == (year + month + day + hour) % 6
  {
    Cast(Remap(year + month + day, 8),
         Remap(year + month + day + hour, 8),
         Remap(year + month + day + hour, 6))
  }

  /** What calculateNumberHexagram computes before building the result. */
  function NumberCast(num1: int, num2: int, total: int): (c: Cast)
    ensures num1 >= 0 ==> 1 <= c.upper <= 8 && c.upper % 8 == num1 % 8
    ensures num2 >= 0 ==> 1 <= c.lower <= 8 && c.lower % 8 == num2 % 8
    ensures total >= 0 ==> 1 <= c.movingLine <= 6 && c.movingLine % 6 == total % 6
  {
    Cast(Remap(num1, 8), Remap(num2, 8), Remap(total, 6))
  }

  // ---------------------------------------------------------------------------
  // The trigram table
  // ---------------------------------------------------------------------------

  /** getTrigramBinary: the pattern of the first trigram numbered `number`, "000" when there is none. */
  function GetTrigramBinary(trigrams: seq<Trigram>, number: int): (r: string)
    ensures (forall i :: 0 <= i < |trigrams| ==> trigrams[i].number != number) ==> r == "000"
    ensures (exists i :: 0 <= i < |trigrams| && trigrams[i].number == number) ==>
              exists i :: 0 <= i < |trigrams| && trigrams[i].number == number && trigrams[i].binary == r
    ensures forall i :: (0 <= i < |trigrams| && trigrams[i].number == number &&
                         (forall j :: 0 <= j < i ==> trigrams[j].number != number)) ==> r == trigrams[i].binary
    ensures ThreeLinePatterns(trigrams) ==> |r| == 3
  {
    if |trigrams| == 0 then "000"
    else if trigrams[0].number == number then trigrams[0].binary
    else GetTrigramBinary(trigrams[1..], number)
  }

  /** getTrigramNumberByBinary: the number of the first trigram with this pattern, 0 when there is none. */
  function GetTrigramNumberByBinary(trigrams: seq<Trigram>, binary: string): (r: int)
    ensures (forall i :: 0 <= i < |trigrams| ==> trigrams[i].binary != binary) ==> r == 0
    ensures (exists i :: 0 <= i < |trigrams| && trigrams[i].binary == binary) ==>
              exists i :: 0 <= i < |trigrams| && trigrams[i].binary == binary && trigrams[i].number == r
    ensures forall i :: (0 <= i < |trigrams| && trigrams[i].binary == binary &&
                         (forall j :: 0 <= j < i ==> trigrams[j].binary != binary)) ==> r == trigrams[i].number
  {
    if |trigrams| == 0 then 0
    else if trigrams[0].binary == binary then trigrams[0].number
    else GetTrigramNumberByBinary(trigrams[1..], binary)
  }

  /** Every pattern in the table has three lines, which the engine's string indexing relies on. */
  predicate ThreeLinePatterns(trigrams: seq<Trigram>) {
    forall i :: 0 <= i < |trigrams| ==> |trigrams[i].binary| == 3
  }

  ghost predicate HasNumber(trigrams: seq<Trigram>, n: int) {
    exists i :: 0 <= i < |trigrams| && trigrams[i].number == n
  }

  ghost predicate HasPattern(trigrams: seq<Trigram>, b: string) {
    exists i :: 0 <= i < |trigrams| && trigrams[i].binary == b
  }

  /** A table pairing the numbers 1..8 one-to-one with the eight 3-line patterns. */
  ghost predicate WellFormedTrigrams(trigrams: seq<Trigram>) {
    ThreeLinePatterns(trigrams) && EntriesInRange(trigrams) && DistinctEntries(trigrams) &&
    CoversNumbers(trigrams) && CoversPatterns(trigrams)
  }

  ghost predicate EntriesInRange(trigrams: seq<Trigram>) {
    forall i :: 0 <= i < |trigrams| ==> 1 <= trigrams[i].number <= 8 && IsBits(trigrams[i].binary)
  }

  ghost predicate DistinctEntries(trigrams: seq<Trigram>) {
    forall i, j :: 0 <= i < j < |trigrams| ==>
      trigrams[i].number != trigrams[j].number && trigrams[i].binary != trigrams[j].binary
  }

  ghost predicate CoversNumbers(trigrams: seq<Trigram>) {
    forall n :: 1 <= n <= 8 ==> HasNumber(trigrams, n)
  }

  ghost predicate CoversPatterns(trigrams: seq<Trigram>) {
    forall b :: |b| == 3 && IsBits(b) ==> HasPattern(trigrams, b)
  }

  /** In a well-formed table every lookup by number yields a 3-line pattern. */
  lemma TrigramBinaryIsPattern(trigrams: seq<Trigram>, n: int)
    requires WellFormedTrigrams(trigrams)
    ensures |GetTrigramBinary(trigrams, n)| == 3 && IsBits(GetTrigramBinary(trigrams, n))
  {
  }

  /** With no number or pattern repeated, looking up entry i's number finds entry i's pattern. */
  lemma {:induction false} BinaryAt(trigrams: seq<Trigram>, i: int)
    requires DistinctEntries(trigrams) && 0 <= i < |trigrams|
    ensures GetTrigramBinary(trigrams, trigrams[i].number) == trigrams[i].binary
  {
    if i > 0 {
      assert trigrams[0].number != trigrams[i].number;
      assert DistinctEntries(trigrams[1..]);
      BinaryAt(trigrams[1..], i - 1);
    }
  }

  /** ... and looking up entry i's pattern finds entry i's number. */
  lemma {:induction false} NumberAt(trigrams: seq<Trigram>, i: int)
    requires DistinctEntries(trigrams) && 0 <= i < |trigrams|
    ensures GetTrigramNumberByBinary(trigrams, trigrams[i].binary) == trigrams[i].number
  {
    if i > 0 {
      assert trigrams[0].binary != trigrams[i].binary;
      assert DistinctEntries(trigrams[1..]);
      NumberAt(trigrams[1..], i - 1);
    }
  }

  /** The two lookups are inverse on the eight trigram numbers. */
  lemma TrigramNumberRoundTrip(trigrams: seq<Trigram>, n: int)
    requires WellFormedTrigrams(trigrams) && 1 <= n <= 8
    ensures GetTrigramNumberByBinary(trigrams, GetTrigramBinary(trigrams, n)) == n
  {
    assert HasNumber(trigrams, n);
    var i :| 0 <= i < |trigrams| && trigrams[i].number == n;
    BinaryAt(trigrams, i);
    NumberAt(trigrams, i);
  }

  /** ... and on the eight 3-line patterns: every pattern names exactly one trigram. */
  lemma TrigramBinaryRoundTrip(trigrams: seq<Trigram>, b: string)
    requires WellFormedTrigrams(trigrams) && |b| == 3 && IsBits(b)
    ensures 1 <= GetTrigramNumberByBinary(trigrams, b) <= 8
    ensures GetTrigramBinary(trigrams, GetTrigramNumberByBinary(trigrams, b)) == b
  {
    assert HasPattern(trigrams, b);
    var i :| 0 <= i < |trigrams| && trigrams[i].binary == b;
    NumberAt(trigrams, i);
    BinaryAt(trigrams, i);
  }

  /** The silent fallbacks: an unknown number reads as "000", which names a real
      trigram; a string that is no 3-line pattern reads as trigram 0, which no
      catalog entry of a complete catalog needs. */
  lemma TrigramFallbacks(trigrams: seq<Trigram>, n: int, b: string)
    requires WellFormedTrigrams(trigrams)
    requires !(1 <= n <= 8)
    requires !(|b| == 3 && IsBits(b))
    ensures GetTrigramBinary(trigrams, n) == "000"
    ensures 1 <= GetTrigramNumberByBinary(trigrams, "000") <= 8
    ensures GetTrigramNumberByBinary(trigrams, b) == 0
  {
    TrigramBinaryRoundTrip(trigrams, "000");
  }

  /** The patterns of the dataset's table, top line first. */
  function StandardPattern(n: int): string {
    if n == 1 then "111"        // 乾
    else if n == 2 then "011"   // 兌
    else if n == 3 then "101"   // 離
    else if n == 4 then "001"   // 震
    else if n == 5 then "110"   // 巽
    else if n == 6 then "010"   // 坎
    else if n == 7 then "100"   // 艮
    else "000"                  // 坤
  }

  /** The dataset's table: trigram i + 1 at index i, with its standard pattern. */
  ghost predicate StandardTable(trigrams: seq<Trigram>) {
    |trigrams| == 8 &&
    forall i :: 0 <= i < 8 ==> trigrams[i].number == i + 1 && trigrams[i].binary == StandardPattern(i + 1)
  }

  /** The 3-line pattern a trigram number 1..8 stands for, read bit by bit. */
  function StandardNumber(b: string): (n: int)
    requires |b| == 3 && IsBits(b)
    ensures 1 <= n <= 8 && StandardPattern(n) == b
  {
    assert b == [b[0], b[1], b[2]];
    if b[0] == '1' then
      if b[1] == '1' then (if b[2] == '1' then 1 else 5)
      else (if b[2] == '1' then 3 else 7)
    else
      if b[1] == '1' then (if b[2] == '1' then 2 else 6)
      else (if b[2] == '1' then 4 else 8)
  }

  /** The dataset's table is well formed. */
  lemma StandardTableWellFormed(trigrams: seq<Trigram>)
    requires StandardTable(trigrams)
    ensures WellFormedTrigrams(trigrams)
  {
    forall i | 0 <= i < |trigrams|
      ensures |trigrams[i].binary| == 3 && 1 <= trigrams[i].number <= 8 && IsBits(trigrams[i].binary)
    {
      StandardPatternBits(i + 1);
    }
    StandardPatternsDistinct(trigrams);
    StandardTableCovers(trigrams);
  }

  /** Each standard pattern has three '0'/'1' lines. */
  lemma StandardPatternBits(n: int)
    ensures |StandardPattern(n)| == 3 && IsBits(StandardPattern(n))
  {
  }

  /** No two entries of the dataset's table share a number or a pattern. */
  lemma StandardPatternsDistinct(trigrams: seq<Trigram>)
    requires StandardTable(trigrams)
    ensures DistinctEntries(trigrams)
  {
    forall i, j | 0 <= i < j < 8
      ensures trigrams[i].binary != trigrams[j].binary
    {
      var bi, bj := StandardPattern(i + 1), StandardPattern(j + 1);
      assert bi[0] != bj[0] || bi[1] != bj[1] || bi[2] != bj[2];
    }
  }

  /** The dataset's table holds every number 1..8 and every 3-line pattern. */
  lemma StandardTableCovers(trigrams: seq<Trigram>)
    requires StandardTable(trigrams)
    ensures CoversNumbers(trigrams) && CoversPatterns(trigrams)
  {
    forall n | 1 <= n <= 8 ensures HasNumber(trigrams, n) {
      assert trigrams[n - 1].number == n;
    }
    forall b | |b| == 3 && IsBits(b) ensures HasPattern(trigrams, b) {
      var n := StandardNumber(b);
      assert trigrams[n - 1].binary == b;
    }
  }

  /** A table in which each number 1..8 reads as its standard pattern. */
  ghost predicate StandardLookups(trigrams: seq<Trigram>) {
    forall n :: 1 <= n <= 8 ==> GetTrigramBinary(trigrams, n) == StandardPattern(n)
  }

  /** Under the standard lookups a hexagram's six lines are its two standard patterns stacked. */
  lemma StandardFull(trigrams: seq<Trigram>, upperNum: int, lowerNum: int)
    requires StandardLookups(trigrams) && 1 <= upperNum <= 8 && 1 <= lowerNum <= 8
    ensures FullPattern(trigrams, upperNum, lowerNum) == StandardPattern(upperNum) + StandardPattern(lowerNum)
  {
  }

  /** The dataset's table is well formed and each number reads as its standard pattern. */
  lemma StandardTableFacts(trigrams: seq<Trigram>)
    requires StandardTable(trigrams)
    ensures WellFormedTrigrams(trigrams) && StandardLookups(trigrams)
  {
    StandardTableWellFormed(trigrams);
    forall n | 1 <= n <= 8 ensures GetTrigramBinary(trigrams, n) == StandardPattern(n) {
      assert trigrams[n - 1].number == n;
    }
  }

  // ---------------------------------------------------------------------------
  // The hexagram catalog
  // ---------------------------------------------------------------------------

  /** getHexagramByTrigrams: the first catalog entry with this upper and lower trigram, or null. */
  function GetHexagramByTrigrams(hexagrams: seq<Hexagram>, upper: int, lower: int): (r: Option<Hexagram>)
    ensures r.None? <==> !HasPair(hexagrams, upper, lower)
    ensures r.Some? ==> exists i :: 0 <= i < |hexagrams| && hexagrams[i] == r.value &&
                          r.value.topTrigram == upper && r.value.bottomTrigram == lower &&
                          forall j :: 0 <= j < i ==> !(hexagrams[j].topTrigram == upper && hexagrams[j].bottomTrigram == lower)
  {
    Find(hexagrams, (h: Hexagram) => h.topTrigram == upper && h.bottomTrigram == lower)
  }

  ghost predicate HasPair(hexagrams: seq<Hexagram>, upper: int, lower: int) {
    exists i :: 0 <= i < |hexagrams| && hexagrams[i].topTrigram == upper && hexagrams[i].bottomTrigram == lower
  }

  /** A catalog holding an entry for each of the 64 trigram pairs. */
  ghost predicate Complete(hexagrams: seq<Hexagram>) {
    forall upper, lower :: 1 <= upper <= 8 && 1 <= lower <= 8 ==> HasPair(hexagrams, upper, lower)
  }

  /** A dataset whose hexagram patterns are the upper trigram's pattern over the lower one's. */
  ghost predicate Consistent(data: Dataset) {
    forall i :: 0 <= i < |data.hexagrams| ==>
      data.hexagrams[i].binary ==
      GetTrigramBinary(data.trigrams, data.hexagrams[i].topTrigram) +
      GetTrigramBinary(data.trigrams, data.hexagrams[i].bottomTrigram)
  }

  /** In a complete, consistent catalog every pair resolves, to the entry whose
      pattern is the two trigram patterns stacked. */
  lemma LookupInCompleteCatalog(data: Dataset, upper: int, lower: int)
    requires Complete(data.hexagrams) && Consistent(data)
    requires 1 <= upper <= 8 && 1 <= lower <= 8
    ensures GetHexagramByTrigrams(data.hexagrams, upper, lower).Some?
    ensures GetHexagramByTrigrams(data.hexagrams, upper, lower).value.binary ==
            GetTrigramBinary(data.trigrams, upper) + GetTrigramBinary(data.trigrams, lower)
  {
    assert HasPair(data.hexagrams, upper, lower);
  }

  // ---------------------------------------------------------------------------
  // Mutual hexagram (互卦)
  // ---------------------------------------------------------------------------

  /** The six lines of the hexagram with these two trigrams, the upper trigram's
      first (index 0 is line 6); in a well-formed table they are six '0'/'1' lines. */
  function FullPattern(trigrams: seq<Trigram>, upperNum: int, lowerNum: int): (r: string)
    ensures ThreeLinePatterns(trigrams) ==> |r| == 6
    ensures WellFormedTrigrams(trigrams) ==> IsBits(r)
  {
    var upper, lower := GetTrigramBinary(trigrams, upperNum), GetTrigramBinary(trigrams, lowerNum);
    LookedUpBits(trigrams, upperNum, lowerNum);
    StackedBits(upper, lower);
    upper + lower
  }

  /** Both patterns looked up in a well-formed table are '0'/'1' lines. */
  lemma LookedUpBits(trigrams: seq<Trigram>, upperNum: int, lowerNum: int)
    ensures WellFormedTrigrams(trigrams) ==>
              IsBits(GetTrigramBinary(trigrams, upperNum)) && IsBits(GetTrigramBinary(trigrams, lowerNum))
  {
    if WellFormedTrigrams(trigrams) {
      TrigramBinaryIsPattern(trigrams, upperNum);
      TrigramBinaryIsPattern(trigrams, lowerNum);
    }
  }

  /** Two '0'/'1' patterns stack into '0'/'1' lines. */
  lemma StackedBits(upper: string, lower: string)
    ensures IsBits(upper) && IsBits(lower) ==> IsBits(upper + lower)
  {
    if IsBits(upper) && IsBits(lower) {
      forall i | 0 <= i < |upper + lower|
        ensures (upper + lower)[i] == '0' || (upper + lower)[i] == '1'
      {
        if i >= |upper| {
          assert (upper + lower)[i] == lower[i - |upper|];
        }
      }
    }
  }

  /** The trigram numbers of the mutual hexagram: its upper trigram is lines 5,4,3
      (indices 1..3), its lower trigram lines 4,3,2 (indices 2..4). The three
      characters the source concatenates are written as a slice. In a well-formed
      table both are real trigrams whose patterns are those inner lines. */
  function MutualTrigrams(trigrams: seq<Trigram>, upperNum: int, lowerNum: int): (r: (int, int))
    requires ThreeLinePatterns(trigrams)
    ensures WellFormedTrigrams(trigrams) ==>
              var full := FullPattern(trigrams, upperNum, lowerNum);
              1 <= r.0 <= 8 && 1 <= r.1 <= 8 &&
              GetTrigramBinary(trigrams, r.0) == full[1..4] &&
              GetTrigramBinary(trigrams, r.1) == full[2..5]
  {
    var fullBin := FullPattern(trigrams, upperNum, lowerNum);
    InnerLinesRoundTrip(trigrams, fullBin);
    var mutualLowerBin := fullBin[2..5];
    var mutualUpperBin := fullBin[1..4];
    (GetTrigramNumberByBinary(trigrams, mutualUpperBin), GetTrigramNumberByBinary(trigrams, mutualLowerBin))
  }

  /** The inner lines 5..3 and 4..2 of six '0'/'1' lines, read as trigrams of a
      well-formed table, name real trigrams with those patterns. */
  lemma InnerLinesRoundTrip(trigrams: seq<Trigram>, full: string)
    requires |full| == 6
    ensures WellFormedTrigrams(trigrams) && IsBits(full) ==>
              var u, l := GetTrigramNumberByBinary(trigrams, full[1..4]), GetTrigramNumberByBinary(trigrams, full[2..5]);
              1 <= u <= 8 && 1 <= l <= 8 &&
              GetTrigramBinary(trigrams, u) == full[1..4] && GetTrigramBinary(trigrams, l) == full[2..5]
  {
    if WellFormedTrigrams(trigrams) && IsBits(full) {
      var upper, lower := full[1..4], full[2..5];
      assert |upper| == 3 && IsBits(upper) && |lower| == 3 && IsBits(lower);
      TrigramBinaryRoundTrip(trigrams, upper);
      TrigramBinaryRoundTrip(trigrams, lower);
    }
  }

  /** generateMutualHexagram: the first catalog record of the mutual trigrams, if any. */
  function GenerateMutualHexagram(data: Dataset, upperNum: int, lowerNum: int): (r: Option<Hexagram>)
    requires ThreeLinePatterns(data.trigrams)
    ensures var m := MutualTrigrams(data.trigrams, upperNum, lowerNum);
            (r.None? <==> !HasPair(data.hexagrams, m.0, m.1)) &&
            (r.Some? ==> r.value in data.hexagrams && r.value.topTrigram == m.0 && r.value.bottomTrigram == m.1)
    ensures var m := MutualTrigrams(data.trigrams, upperNum, lowerNum);
            r == GetHexagramByTrigrams(data.hexagrams, m.0, m.1)
  {
    var m := MutualTrigrams(data.trigrams, upperNum, lowerNum);
    GetHexagramByTrigrams(data.hexagrams, m.0, m.1)
  }

  /** The top line (index 0) and the bottom line (index 5) of the original never
      affect the mutual hexagram. */
  lemma MutualIgnoresOuterLines(trigrams: seq<Trigram>, upper1: int, lower1: int, upper2: int, lower2: int)
    requires ThreeLinePatterns(trigrams)
    requires FullPattern(trigrams, upper1, lower1)[1..5] == FullPattern(trigrams, upper2, lower2)[1..5]
    ensures MutualTrigrams(trigrams, upper1, lower1) == MutualTrigrams(trigrams, upper2, lower2)
  {
    var f1, f2 := FullPattern(trigrams, upper1, lower1), FullPattern(trigrams, upper2, lower2);
    assert f1[1..4] == f1[1..5][..3] == f2[1..5][..3] == f2[1..4];
    assert f1[2..5] == f1[1..5][1..] == f2[1..5][1..] == f2[2..5];
  }

  // ---------------------------------------------------------------------------
  // Changed hexagram (變卦)
  // ---------------------------------------------------------------------------

  /** The 6-line pattern with line `movingLine` (index 6 - movingLine) flipped. A
      moving line outside 1..6 flips none of the six lines: for 0 the source's array
      gains a seventh element, which the two three-line halves read afterwards never
      see, so the pattern is kept as it is. */
  function FlipLine(fullBin: string, movingLine: int): (r: string)
    ensures |r| == |fullBin|
    ensures forall i :: 0 <= i < |fullBin| ==> (r[i] != fullBin[i] <==> i == 6 - movingLine)
    ensures forall i :: 0 <= i < |fullBin| && i == 6 - movingLine ==> (r[i] == '1' <==> fullBin[i] != '1')
  {
    var indexToFlip := 6 - movingLine;
    if 0 <= indexToFlip < |fullBin|
    then fullBin[indexToFlip := if fullBin[indexToFlip] == '1' then '0' else '1']
    else fullBin
  }

  /** Flipping the same line twice restores a pattern of '0'/'1' lines. */
  lemma FlipLineTwice(fullBin: string, movingLine: int)
    requires IsBits(fullBin)
    ensures IsBits(FlipLine(fullBin, movingLine))
    ensures FlipLine(FlipLine(fullBin, movingLine), movingLine) == fullBin
  {
    var once := FlipLine(fullBin, movingLine);
    var twice := FlipLine(once, movingLine);
    assert forall i :: 0 <= i < |fullBin| ==> twice[i] == fullBin[i];
  }

  /** The trigram numbers of the changed hexagram. In a well-formed table they are
      real trigrams whose stacked patterns are the original's with the moving line flipped. */
  function ChangedTrigrams(trigrams: seq<Trigram>, upperNum: int, lowerNum: int, movingLine: int): (r: (int, int))
    requires ThreeLinePatterns(trigrams)
    ensures WellFormedTrigrams(trigrams) ==>
              1 <= r.0 <= 8 && 1 <= r.1 <= 8 &&
              FullPattern(trigrams, r.0, r.1) == FlipLine(FullPattern(trigrams, upperNum, lowerNum), movingLine)
  {
    FlippedRoundTrip(trigrams, FullPattern(trigrams, upperNum, lowerNum), movingLine);
    var newFullBin := FlipLine(FullPattern(trigrams, upperNum, lowerNum), movingLine);
    (GetTrigramNumberByBinary(trigrams, newFullBin[0..3]), GetTrigramNumberByBinary(trigrams, newFullBin[3..6]))
  }

  /** The two halves of six '0'/'1' lines are 3-line patterns that stack back to the six. */
  lemma Halves(s: string)
    requires |s| == 6 && IsBits(s)
    ensures IsBits(s[0..3]) && IsBits(s[3..6]) && s[0..3] + s[3..6] == s
  {
  }

  /** Two 3-line patterns read as trigrams and stacked again give the same six lines. */
  lemma StackedRoundTrip(trigrams: seq<Trigram>, top: string, bottom: string)
    requires WellFormedTrigrams(trigrams)
    requires |top| == 3 && IsBits(top) && |bottom| == 3 && IsBits(bottom)
    ensures 1 <= GetTrigramNumberByBinary(trigrams, top) <= 8 && 1 <= GetTrigramNumberByBinary(trigrams, bottom) <= 8
    ensures FullPattern(trigrams, GetTrigramNumberByBinary(trigrams, top), GetTrigramNumberByBinary(trigrams, bottom)) ==
            top + bottom
  {
    TrigramBinaryRoundTrip(trigrams, top);
    TrigramBinaryRoundTrip(trigrams, bottom);
  }

  /** Splitting six '0'/'1' lines into two trigrams and reading them back gives the same six lines. */
  lemma SplitRoundTrip(trigrams: seq<Trigram>, s: string)
    requires WellFormedTrigrams(trigrams) && |s| == 6 && IsBits(s)
    ensures var u, l := GetTrigramNumberByBinary(trigrams, s[0..3]), GetTrigramNumberByBinary(trigrams, s[3..6]);
            1 <= u <= 8 && 1 <= l <= 8 && FullPattern(trigrams, u, l) == s
  {
    Halves(s);
    StackedRoundTrip(trigrams, s[0..3], s[3..6]);
  }

  /** Six '0'/'1' lines with one line flipped, split into trigrams of a well-formed
      table and stacked again, give the flipped lines back. */
  lemma FlippedRoundTrip(trigrams: seq<Trigram>, full: string, movingLine: int)
    ensures WellFormedTrigrams(trigrams) && |full| == 6 && IsBits(full) ==>
              var s := FlipLine(full, movingLine);
              var u, l := GetTrigramNumberByBinary(trigrams, s[0..3]), GetTrigramNumberByBinary(trigrams, s[3..6]);
              1 <= u <= 8 && 1 <= l <= 8 && FullPattern(trigrams, u, l) == s
  {
    if WellFormedTrigrams(trigrams) && |full| == 6 && IsBits(full) {
      FlipLineTwice(full, movingLine);
      SplitRoundTrip(trigrams, FlipLine(full, movingLine));
    }
  }

  /** generateChangedHexagram: the pattern is split into an array, the moving line
      is flipped in place, and the new halves are looked up. */
  method GenerateChangedHexagram(data: Dataset, upperNum: int, lowerNum: int, movingLine: int)
    returns (r: Option<Hexagram>)
    requires ThreeLinePatterns(data.trigrams)
    ensures var c := ChangedTrigrams(data.trigrams, upperNum, lowerNum, movingLine);
            r == GetHexagramByTrigrams(data.hexagrams, c.0, c.1)
  {
    var fullBin := GetTrigramBinary(data.trigrams, upperNum) + GetTrigramBinary(data.trigrams, lowerNum);
    var binArray := new char[|fullBin|](i requires 0 <= i < |fullBin| => fullBin[i]);
    var indexToFlip := 6 - movingLine;
    if 0 <= indexToFlip < binArray.Length {
      binArray[indexToFlip] := if binArray[indexToFlip] == '1' then '0' else '1';
    }
    var newFullBin := binArray[..];
    assert newFullBin == FlipLine(fullBin, movingLine);
    var newUpperBin := newFullBin[0..3];
    var newLowerBin := newFullBin[3..6];
    var newUpperNum := GetTrigramNumberByBinary(data.trigrams, newUpperBin);
    var newLowerNum := GetTrigramNumberByBinary(data.trigrams, newLowerBin);
    r := GetHexagramByTrigrams(data.hexagrams, newUpperNum, newLowerNum);
  }

  /** Exactly the moving line changes, so the trigram that does not hold it keeps its number. */
  lemma ChangedFlipsMovingLineOnly(trigrams: seq<Trigram>, upperNum: int, lowerNum: int, movingLine: int)
    requires WellFormedTrigrams(trigrams)
    requires 1 <= upperNum <= 8 && 1 <= lowerNum <= 8 && 1 <= movingLine <= 6
    ensures var full := FullPattern(trigrams, upperNum, lowerNum);
            var c := ChangedTrigrams(trigrams, upperNum, lowerNum, movingLine);
            var changed := FullPattern(trigrams, c.0, c.1);
            |changed| == 6 &&
            forall i :: 0 <= i < 6 ==> (changed[i] != full[i] <==> i == 6 - movingLine)
    ensures movingLine <= 3 ==> ChangedTrigrams(trigrams, upperNum, lowerNum, movingLine).0 == upperNum
    ensures movingLine > 3 ==> ChangedTrigrams(trigrams, upperNum, lowerNum, movingLine).1 == lowerNum
  {
    var full := FullPattern(trigrams, upperNum, lowerNum);
    var c := ChangedTrigrams(trigrams, upperNum, lowerNum, movingLine);
    var changed := FullPattern(trigrams, c.0, c.1);
    if movingLine <= 3 {
      assert GetTrigramBinary(trigrams, c.0) == changed[..3] == full[..3] == GetTrigramBinary(trigrams, upperNum);
      TrigramNumberRoundTrip(trigrams, c.0);
      TrigramNumberRoundTrip(trigrams, upperNum);
    } else {
      assert GetTrigramBinary(trigrams, c.1) == changed[3..] == full[3..] == GetTrigramBinary(trigrams, lowerNum);
      TrigramNumberRoundTrip(trigrams, c.1);
      TrigramNumberRoundTrip(trigrams, lowerNum);
    }
  }

  /** Stacking two 3-line patterns can be undone by slicing. */
  lemma Unstack(top: string, bottom: string)
    requires |top| == 3
    ensures (top + bottom)[..3] == top && (top + bottom)[3..] == bottom
  {
  }

  /** Different pairs of trigrams 1..8 make different hexagram patterns. */
  lemma FullPatternInjective(trigrams: seq<Trigram>, upper1: int, lower1: int, upper2: int, lower2: int)
    requires WellFormedTrigrams(trigrams)
    requires 1 <= upper1 <= 8 && 1 <= lower1 <= 8 && 1 <= upper2 <= 8 && 1 <= lower2 <= 8
    requires FullPattern(trigrams, upper1, lower1) == FullPattern(trigrams, upper2, lower2)
    ensures upper1 == upper2 && lower1 == lower2
  {
    TrigramBinaryIsPattern(trigrams, upper1);
    TrigramBinaryIsPattern(trigrams, upper2);
    Unstack(GetTrigramBinary(trigrams, upper1), GetTrigramBinary(trigrams, lower1));
    Unstack(GetTrigramBinary(trigrams, upper2), GetTrigramBinary(trigrams, lower2));
    TrigramNumberRoundTrip(trigrams, upper1);
    TrigramNumberRoundTrip(trigrams, upper2);
    TrigramNumberRoundTrip(trigrams, lower1);
    TrigramNumberRoundTrip(trigrams, lower2);
  }

  /** Changing the same line twice restores the original trigrams. */
  lemma ChangedTwiceRestores(trigrams: seq<Trigram>, upperNum: int, lowerNum: int, movingLine: int)
    requires WellFormedTrigrams(trigrams)
    requires 1 <= upperNum <= 8 && 1 <= lowerNum <= 8
    ensures var c := ChangedTrigrams(trigrams, upperNum, lowerNum, movingLine);
            ChangedTrigrams(trigrams, c.0, c.1, movingLine) == (upperNum, lowerNum)
  {
    var full := FullPattern(trigrams, upperNum, lowerNum);
    var c := ChangedTrigrams(trigrams, upperNum, lowerNum, movingLine);
    var c2 := ChangedTrigrams(trigrams, c.0, c.1, movingLine);
    FlipLineTwice(full, movingLine);
    FullPatternInjective(trigrams, c2.0, c2.1, upperNum, lowerNum);
  }

  // ---------------------------------------------------------------------------
  // Body/use (體/用) and the five-element relation
  // ---------------------------------------------------------------------------

  /** `FIVE_ELEMENTS[n]`; undefined for a number outside 1..8. */
  function ElementOf(n: int): Option<string>
  {
    if n in FiveElements then Some(FiveElements[n]) else None
  }

  /** `table[key]` for a possibly undefined key. */
  function Lookup(table: map<string, string>, key: Option<string>): Option<string>
  {
    if key.Some? && key.value in table then Some(table[key.value]) else None
  }

  /** analyzeRelation: equal first, then generating, then overcoming. */
  function AnalyzeRelation(tiElement: Option<string>, yongElement: Option<string>): (r: string)
    ensures r == Harmonious <==> tiElement == yongElement
  {
    if tiElement == yongElement then Harmonious
    else if Lookup(Generating, tiElement) == yongElement then BodyGeneratesUse
    else if Lookup(Generating, yongElement) == tiElement then UseGeneratesBody
    else if Lookup(Overcoming, tiElement) == yongElement then BodyOvercomesUse
    else if Lookup(Overcoming, yongElement) == tiElement then UseOvercomesBody
    else UnknownRelation
  }

  /** The elements in generating order: each generates the next and overcomes the one after. */
  const Cycle: seq<string> := ["金", "水", "木", "火", "土"]

  /** The relation read off the two cycles: the use element's distance from the
      body element along the generating cycle. */
  function RelationByCycle(ti: nat, yong: nat): string
    requires ti < 5 && yong < 5
  {
    match (yong - ti) % 5
    case 0 => Harmonious
    case 1 => BodyGeneratesUse
    case 2 => BodyOvercomesUse
    case 3 => UseOvercomesBody
    case _ => UseGeneratesBody
  }

  /** analyzeRelation agrees with the cycle reading on every pair of elements,
      so it never answers 未知關係 for two real elements. */
  lemma AnalyzeRelationMatchesCycles(ti: nat, yong: nat)
    requires ti < 5 && yong < 5
    ensures AnalyzeRelation(Some(Cycle[ti]), Some(Cycle[yong])) == RelationByCycle(ti, yong)
    ensures AnalyzeRelation(Some(Cycle[ti]), Some(Cycle[yong])) != UnknownRelation
  {
    if ti < 3 {
      RelationsFromMetalWaterWood(ti, yong);
    } else {
      RelationsFromFireEarth(ti, yong);
    }
  }

  /** The cycle reading for body elements 金, 水 and 木. */
  lemma RelationsFromMetalWaterWood(ti: nat, yong: nat)
    requires ti < 3 && yong < 5
    ensures AnalyzeRelation(Some(Cycle[ti]), Some(Cycle[yong])) == RelationByCycle(ti, yong)
  {
  }

  /** The cycle reading for body elements 火 and 土. */
  lemma RelationsFromFireEarth(ti: nat, yong: nat)
    requires 3 <= ti < 5 && yong < 5
    ensures AnalyzeRelation(Some(Cycle[ti]), Some(Cycle[yong])) == RelationByCycle(ti, yong)
  {
  }

  /** Where trigram n's element sits in the generating cycle. */
  function CycleIndex(n: int): (i: nat)
    requires 1 <= n <= 8
    ensures i < 5 && ElementOf(n) == Some(Cycle[i])
  {
    if n <= 2 then 0 else if n == 3 then 3 else if n <= 5 then 2 else if n == 6 then 1 else 4
  }

  /** Any two trigram numbers 1..8 give a known relation. */
  lemma TrigramRelationKnown(a: int, b: int)
    requires 1 <= a <= 8 && 1 <= b <= 8
    ensures AnalyzeRelation(ElementOf(a), ElementOf(b)) != UnknownRelation
  {
    AnalyzeRelationMatchesCycles(CycleIndex(a), CycleIndex(b));
  }

  datatype Side = Side(number: int, element: Option<string>)
  datatype Analysis = Analysis(ti: Side, yong: Side, relation: string)

  /** The analysis part of processHexagramResult: the trigram holding the moving
      line is use (用), the other is body (體). */
  function Analyze(upperNum: int, lowerNum: int, movingLine: int): (a: Analysis)
    ensures movingLine > 3 ==> a.yong.number == upperNum && a.ti.number == lowerNum
    ensures movingLine <= 3 ==> a.yong.number == lowerNum && a.ti.number == upperNum
    ensures a.ti.element == ElementOf(a.ti.number) && a.yong.element == ElementOf(a.yong.number)
    ensures a.relation == AnalyzeRelation(a.ti.element, a.yong.element)
  {
    var isUpperMoving := movingLine > 3;
    var tiTrigramNum := if isUpperMoving then lowerNum else upperNum;
    var yongTrigramNum := if isUpperMoving then upperNum else lowerNum;
    var tiElement := ElementOf(tiTrigramNum);
    var yongElement := ElementOf(yongTrigramNum);
    Analysis(Side(tiTrigramNum, tiElement), Side(yongTrigramNum, yongElement),
             AnalyzeRelation(tiElement, yongElement))
  }

  // ---------------------------------------------------------------------------
  // The composite result
  // ---------------------------------------------------------------------------

  /** `original` is the looked-up hexagram (null when absent) with the moving line attached. */
  datatype CastingResult = CastingResult(
    original: Option<Hexagram>, movingLine: int,
    mutual: Option<Hexagram>, changed: Option<Hexagram>,
    analysis: Analysis)

  /** What processHexagramResult returns for these three numbers. */
  function ExpectedResult(data: Dataset, upperNum: int, lowerNum: int, movingLine: int): CastingResult
    requires ThreeLinePatterns(data.trigrams)
  {
    var c := ChangedTrigrams(data.trigrams, upperNum, lowerNum, movingLine);
    CastingResult(GetHexagramByTrigrams(data.hexagrams, upperNum, lowerNum), movingLine,
                  GenerateMutualHexagram(data, upperNum, lowerNum),
                  GetHexagramByTrigrams(data.hexagrams, c.0, c.1),
                  Analyze(upperNum, lowerNum, movingLine))
  }

  /** processHexagramResult */
  method ProcessHexagramResult(data: Dataset, upperNum: int, lowerNum: int, movingLine: int)
    returns (r: CastingResult)
    requires ThreeLinePatterns(data.trigrams)
    ensures r == ExpectedResult(data, upperNum, lowerNum, movingLine)
  {
    var original := GetHexagramByTrigrams(data.hexagrams, upperNum, lowerNum);
    var mutual := GenerateMutualHexagram(data, upperNum, lowerNum);
    var changed := GenerateChangedHexagram(data, upperNum, lowerNum, movingLine);
    var analysis := Analyze(upperNum, lowerNum, movingLine);
    r := CastingResult(original, movingLine, mutual, changed, analysis);
  }

  /** In a complete catalog over a well-formed table the mutual hexagram is always found. */
  lemma MutualFound(data: Dataset, upperNum: int, lowerNum: int)
    requires WellFormedTrigrams(data.trigrams) && Complete(data.hexagrams)
    ensures GenerateMutualHexagram(data, upperNum, lowerNum).Some?
  {
    var m := MutualTrigrams(data.trigrams, upperNum, lowerNum);
    assert HasPair(data.hexagrams, m.0, m.1);
  }

  /** ... and so is the changed hexagram. */
  lemma ChangedFound(data: Dataset, upperNum: int, lowerNum: int, movingLine: int)
    requires WellFormedTrigrams(data.trigrams) && Complete(data.hexagrams)
    ensures var c := ChangedTrigrams(data.trigrams, upperNum, lowerNum, movingLine);
            GetHexagramByTrigrams(data.hexagrams, c.0, c.1).Some?
  {
    var c := ChangedTrigrams(data.trigrams, upperNum, lowerNum, movingLine);
    assert HasPair(data.hexagrams, c.0, c.1);
  }

  /** In a complete catalog over a well-formed table every casting with numbers in
      range finds all three hexagrams. */
  lemma ResultComplete(data: Dataset, upperNum: int, lowerNum: int, movingLine: int)
    requires WellFormedTrigrams(data.trigrams) && Complete(data.hexagrams)
    requires 1 <= upperNum <= 8 && 1 <= lowerNum <= 8
    ensures var r := ExpectedResult(data, upperNum, lowerNum, movingLine);
            r.original.Some? && r.mutual.Some? && r.changed.Some?
  {
    MutualFound(data, upperNum, lowerNum);
    ChangedFound(data, upperNum, lowerNum, movingLine);
    assert HasPair(data.hexagrams, upperNum, lowerNum);
  }

  /** For trigram numbers in range the body/use relation is always a known one. */
  lemma AnalysisKnown(upperNum: int, lowerNum: int, movingLine: int)
    requires 1 <= upperNum <= 8 && 1 <= lowerNum <= 8
    ensures Analyze(upperNum, lowerNum, movingLine).relation != UnknownRelation
  {
    if movingLine > 3 {
      TrigramRelationKnown(lowerNum, upperNum);
    } else {
      TrigramRelationKnown(upperNum, lowerNum);
    }
  }

  /** calculateTimeHexagram */
  method CalculateTimeHexagram(data: Dataset, year: int, month: int, day: int, hour: int)
    returns (r: CastingResult)
    requires ThreeLinePatterns(data.trigrams)
    ensures var c := TimeCast(year, month, day, hour);
            r == ExpectedResult(data, c.upper, c.lower, c.movingLine)
  {
    var upperNum := JsRem(year + month + day, 8);
    if upperNum == 0 { upperNum := 8; }

    var lowerNum := JsRem(year + month + day + hour, 8);
    if lowerNum == 0 { lowerNum := 8; }

    var movingLine := JsRem(year + month + day + hour, 6);
    if movingLine == 0 { movingLine := 6; }

    r := ProcessHexagramResult(data, upperNum, lowerNum, movingLine);
  }

  /** calculateNumberHexagram */
  method CalculateNumberHexagram(data: Dataset, num1: int, num2: int, total: int)
    returns (r: CastingResult)
    requires ThreeLinePatterns(data.trigrams)
    ensures var c := NumberCast(num1, num2, total);
            r == ExpectedResult(data, c.upper, c.lower, c.movingLine)
  {
    var upperNum := JsRem(num1, 8);
    if upperNum == 0 { upperNum := 8; }

    var lowerNum := JsRem(num2, 8);
    if lowerNum == 0 { lowerNum := 8; }

    var movingLine := JsRem(total, 6);
    if movingLine == 0 { movingLine := 6; }

    r := ProcessHexagramResult(data, upperNum, lowerNum, movingLine);
  }

  // ---------------------------------------------------------------------------
  // Worked examples
  // ---------------------------------------------------------------------------

  /** Distinct trigram numbers have distinct patterns. */
  lemma TrigramBinaryInjective(trigrams: seq<Trigram>, a: int, b: int)
    requires WellFormedTrigrams(trigrams) && 1 <= a <= 8 && 1 <= b <= 8
    requires GetTrigramBinary(trigrams, a) == GetTrigramBinary(trigrams, b)
    ensures a == b
  {
    TrigramNumberRoundTrip(trigrams, a);
    TrigramNumberRoundTrip(trigrams, b);
  }

  /** The mutual trigrams are the ones whose patterns are the original's inner lines. */
  lemma MutualByPatterns(trigrams: seq<Trigram>, upperNum: int, lowerNum: int, upper: int, lower: int)
    requires WellFormedTrigrams(trigrams) && 1 <= upper <= 8 && 1 <= lower <= 8
    requires FullPattern(trigrams, upperNum, lowerNum)[1..4] == GetTrigramBinary(trigrams, upper)
    requires FullPattern(trigrams, upperNum, lowerNum)[2..5] == GetTrigramBinary(trigrams, lower)
    ensures MutualTrigrams(trigrams, upperNum, lowerNum) == (upper, lower)
  {
    var m := MutualTrigrams(trigrams, upperNum, lowerNum);
    TrigramBinaryInjective(trigrams, m.0, upper);
    TrigramBinaryInjective(trigrams, m.1, lower);
  }

  /** The changed trigrams are the ones whose stacked patterns are the flipped original. */
  lemma ChangedByPatterns(trigrams: seq<Trigram>, upperNum: int, lowerNum: int, movingLine: int, upper: int, lower: int)
    requires WellFormedTrigrams(trigrams) && 1 <= upper <= 8 && 1 <= lower <= 8
    requires FlipLine(FullPattern(trigrams, upperNum, lowerNum), movingLine) == FullPattern(trigrams, upper, lower)
    ensures ChangedTrigrams(trigrams, upperNum, lowerNum, movingLine) == (upper, lower)
  {
    var c := ChangedTrigrams(trigrams, upperNum, lowerNum, movingLine);
    FullPatternInjective(trigrams, c.0, c.1, upper, lower);
  }

  /** The line patterns of 澤火革 (兌 over 離): lines 5..3 are 乾, lines 4..2 are 巽,
      and flipping line 1 gives 兌 over 艮. */
  lemma WatchingLines()
    ensures (StandardPattern(2) + StandardPattern(3))[1..4] == StandardPattern(1)
    ensures (StandardPattern(2) + StandardPattern(3))[2..5] == StandardPattern(5)
    ensures FlipLine(StandardPattern(2) + StandardPattern(3), 1) == StandardPattern(2) + StandardPattern(7)
  {
    assert StandardPattern(2) + StandardPattern(3) == "011101";
    assert StandardPattern(2) + StandardPattern(7) == "011100";
  }

  /** The line patterns of 天風姤 (乾 over 巽): lines 5..3 and 4..2 are both 乾, and
      flipping line 5 gives 離 over 巽. */
  lemma PeonyLines()
    ensures (StandardPattern(1) + StandardPattern(5))[1..4] == StandardPattern(1)
    ensures (StandardPattern(1) + StandardPattern(5))[2..5] == StandardPattern(1)
    ensures FlipLine(StandardPattern(1) + StandardPattern(5), 5) == StandardPattern(3) + StandardPattern(5)
  {
    assert StandardPattern(1) + StandardPattern(5) == "111110";
    assert StandardPattern(3) + StandardPattern(5) == "101110";
  }

  /** Under the standard lookups the mutual trigrams are read off the standard patterns. */
  lemma StandardMutual(trigrams: seq<Trigram>, upperNum: int, lowerNum: int, upper: int, lower: int)
    requires WellFormedTrigrams(trigrams) && StandardLookups(trigrams)
    requires 1 <= upperNum <= 8 && 1 <= lowerNum <= 8 && 1 <= upper <= 8 && 1 <= lower <= 8
    requires (StandardPattern(upperNum) + StandardPattern(lowerNum))[1..4] == StandardPattern(upper)
    requires (StandardPattern(upperNum) + StandardPattern(lowerNum))[2..5] == StandardPattern(lower)
    ensures MutualTrigrams(trigrams, upperNum, lowerNum) == (upper, lower)
  {
    StandardFull(trigrams, upperNum, lowerNum);
    MutualByPatterns(trigrams, upperNum, lowerNum, upper, lower);
  }

  /** Under the standard lookups the changed trigrams are read off the standard patterns. */
  lemma StandardChanged(trigrams: seq<Trigram>, upperNum: int, lowerNum: int, movingLine: int, upper: int, lower: int)
    requires WellFormedTrigrams(trigrams) && StandardLookups(trigrams)
    requires 1 <= upperNum <= 8 && 1 <= lowerNum <= 8 && 1 <= upper <= 8 && 1 <= lower <= 8
    requires FlipLine(StandardPattern(upperNum) + StandardPattern(lowerNum), movingLine) ==
             StandardPattern(upper) + StandardPattern(lower)
    ensures ChangedTrigrams(trigrams, upperNum, lowerNum, movingLine) == (upper, lower)
  {
    StandardFull(trigrams, upperNum, lowerNum);
    StandardFull(trigrams, upper, lower);
    ChangedByPatterns(trigrams, upperNum, lowerNum, movingLine, upper, lower);
  }

  /** With the dataset's table, the mutual hexagram of 澤火革 is 天風姤. */
  lemma WatchingMutual(trigrams: seq<Trigram>)
    requires WellFormedTrigrams(trigrams) && StandardLookups(trigrams)
    ensures MutualTrigrams(trigrams, 2, 3) == (1, 5)
  {
    WatchingLines();
    StandardMutual(trigrams, 2, 3, 1, 5);
  }

  /** ... and line 1 moving changes it into 澤山咸. */
  lemma WatchingChanged(trigrams: seq<Trigram>)
    requires WellFormedTrigrams(trigrams) && StandardLookups(trigrams)
    ensures ChangedTrigrams(trigrams, 2, 3, 1) == (2, 7)
  {
    WatchingLines();
    StandardChanged(trigrams, 2, 3, 1, 2, 7);
  }

  /** With the dataset's table, the mutual hexagram of 天風姤 is 乾為天. */
  lemma PeonyMutual(trigrams: seq<Trigram>)
    requires WellFormedTrigrams(trigrams) && StandardLookups(trigrams)
    ensures MutualTrigrams(trigrams, 1, 5) == (1, 1)
  {
    PeonyLines();
    StandardMutual(trigrams, 1, 5, 1, 1);
  }

  /** ... and line 5 moving changes it into 火風鼎. */
  lemma PeonyChanged(trigrams: seq<Trigram>)
    requires WellFormedTrigrams(trigrams) && StandardLookups(trigrams)
    ensures ChangedTrigrams(trigrams, 1, 5, 5) == (3, 5)
  {
    PeonyLines();
    StandardChanged(trigrams, 1, 5, 5, 3, 5);
  }

  /** The result of a casting whose mutual and changed trigrams are known, in a complete catalog. */
  lemma ResultOfDerivation(data: Dataset, upperNum: int, lowerNum: int, movingLine: int, mutual: (int, int), changed: (int, int))
    requires ThreeLinePatterns(data.trigrams) && Complete(data.hexagrams)
    requires 1 <= upperNum <= 8 && 1 <= lowerNum <= 8
    requires 1 <= mutual.0 <= 8 && 1 <= mutual.1 <= 8 && 1 <= changed.0 <= 8 && 1 <= changed.1 <= 8
    requires MutualTrigrams(data.trigrams, upperNum, lowerNum) == mutual
    requires ChangedTrigrams(data.trigrams, upperNum, lowerNum, movingLine) == changed
    ensures var r := ExpectedResult(data, upperNum, lowerNum, movingLine);
            r.original.Some? && r.original.value.topTrigram == upperNum && r.original.value.bottomTrigram == lowerNum &&
            r.mutual.Some? && r.mutual.value.topTrigram == mutual.0 && r.mutual.value.bottomTrigram == mutual.1 &&
            r.changed.Some? && r.changed.value.topTrigram == changed.0 && r.changed.value.bottomTrigram == changed.1 &&
            r.analysis == Analyze(upperNum, lowerNum, movingLine)
  {
    assert HasPair(data.hexagrams, upperNum, lowerNum);
    assert HasPair(data.hexagrams, mutual.0, mutual.1);
    assert HasPair(data.hexagrams, changed.0, changed.1);
  }

  /** In both worked examples the use trigram's element overcomes the body's:
      火 overcomes 金 in the first, 金 overcomes 木 in the second. */
  lemma ExampleRelations()
    ensures Analyze(2, 3, 1).relation == UseOvercomesBody
    ensures Analyze(1, 5, 5).relation == UseOvercomesBody
  {
    AnalyzeRelationMatchesCycles(0, 3);
    AnalyzeRelationMatchesCycles(2, 0);
  }

  /** 觀梅占: 辰年十二月十七日申時 gives 澤火革 (兌 over 離), moving line 1, mutual
      天風姤 (乾 over 巽), changed 澤山咸 (兌 over 艮); body 金 is overcome by use 火. */
  lemma PlumBlossomWatchingCast(data: Dataset)
    requires StandardTable(data.trigrams) && Complete(data.hexagrams)
    ensures TimeCast(5, 12, 17, 9) == Cast(2, 3, 1)
    ensures var r := ExpectedResult(data, 2, 3, 1);
            r.original.Some? && r.original.value.topTrigram == 2 && r.original.value.bottomTrigram == 3 &&
            r.mutual.Some? && r.mutual.value.topTrigram == 1 && r.mutual.value.bottomTrigram == 5 &&
            r.changed.Some? && r.changed.value.topTrigram == 2 && r.changed.value.bottomTrigram == 7 &&
            r.analysis.relation == UseOvercomesBody
  {
    StandardTableFacts(data.trigrams);
    WatchingMutual(data.trigrams);
    WatchingChanged(data.trigrams);
    ResultOfDerivation(data, 2, 3, 1, (1, 5), (2, 7));
    ExampleRelations();
  }

  /** 牡丹占: 巳年三月十六日卯時 gives 天風姤 (乾 over 巽), moving line 5, mutual
      乾為天, changed 火風鼎 (離 over 巽); body 木 is overcome by use 金. */
  lemma PeonyCast(data: Dataset)
    requires StandardTable(data.trigrams) && Complete(data.hexagrams)
    ensures TimeCast(6, 3, 16, 4) == Cast(1, 5, 5)
    ensures var r := ExpectedResult(data, 1, 5, 5);
            r.original.Some? && r.original.value.topTrigram == 1 && r.original.value.bottomTrigram == 5 &&
            r.mutual.Some? && r.mutual.value.topTrigram == 1 && r.mutual.value.bottomTrigram == 1 &&
            r.changed.Some? && r.changed.value.topTrigram == 3 && r.changed.value.bottomTrigram == 5 &&
            r.analysis.relation == UseOvercomesBody
  {
    StandardTableFacts(data.trigrams);
    PeonyMutual(data.trigrams);
    PeonyChanged(data.trigrams);
    ResultOfDerivation(data, 1, 5, 5, (1, 1), (3, 5));
    ExampleRelations();
  }

  /** Every remainder is 0, so every number is remapped. */
  lemma AllRemappedNumberCast()
    ensures NumberCast(9, 9, 6) == Cast(1, 1, 6)
  {
  }
}
