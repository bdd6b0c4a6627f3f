/** The line-string helpers and classifiers of src/utils/plumBlossom.js.

    A hexagram is a string of '0' (yin) and '1' (yang) lines read as a base-2
    numeral: index 0 is the top line and the last index the bottom line, so the
    line at index i of an n-line string is line n - i. The clock readings the
    source takes (`new Date()`) are parameters here. */
module PlumBlossom {
  import opened Common
  import opened Records
  import HexagramEngine
  import EnhanceHexagramData

  // ---------------------------------------------------------------------------
  // Line strings as base-2 numerals
  // ---------------------------------------------------------------------------

  /** The value of a line string as a base-2 numeral, most significant line first. */
  function BitsValue(s: string): nat
  {
    if |s| == 0 then 0 else 2 * BitsValue(s[..|s| - 1]) + (if s[|s| - 1] == '1' then 1 else 0)
  }

  function Pow2(k: nat): nat
  {
    if k == 0 then 1 else 2 * Pow2(k - 1)
  }

  /** A numeral of k lines denotes less than 2^k. */
  lemma {:induction false} BitsValueBound(s: string)
    ensures BitsValue(s) < Pow2(|s|)
  {
    if |s| > 0 {
      BitsValueBound(s[..|s| - 1]);
    }
  }

  /** Two line strings of the same length with the same value are the same string. */
  lemma {:induction false} BitsValueInjective(s: string, t: string)
    requires IsBits(s) && IsBits(t) && |s| == |t| && BitsValue(s) == BitsValue(t)
    ensures s == t
  {
    if |s| > 0 {
      var n := |s|;
      BitsValueInjective(s[..n - 1], t[..n - 1]);
      assert s == s[..n - 1] + [s[n - 1]];
      assert t == t[..n - 1] + [t[n - 1]];
    }
  }

  /** Leading '0' lines do not change the value. */
  lemma {:induction false} LeadingZerosValue(zeros: string, s: string)
    requires forall i :: 0 <= i < |zeros| ==> zeros[i] == '0'
    ensures BitsValue(zeros + s) == BitsValue(s)
  {
    if |s| == 0 {
      assert zeros + s == zeros;
      if |zeros| > 0 {
        LeadingZerosValue(zeros[..|zeros| - 1], "");
        assert zeros[..|zeros| - 1] + "" == zeros[..|zeros| - 1];
      }
    } else {
      var n := |s|;
      LeadingZerosValue(zeros, s[..n - 1]);
      assert (zeros + s)[..|zeros + s| - 1] == zeros + s[..n - 1];
    }
  }

  /** `n.toString(2)` for a non-negative integer: the shortest base-2 numeral of n. */
  function ToBinary(n: nat): (s: string)
    ensures |s| >= 1 && IsBits(s) && BitsValue(s) == n
  {
    var digit := if n % 2 == 1 then "1" else "0";
    if n < 2 then digit
    else
      var s := ToBinary(n / 2) + digit;
      assert s[..|s| - 1] == ToBinary(n / 2);
      s
  }

  /** A number below 2^k needs at most k lines. */
  lemma {:induction false} ToBinaryLength(n: nat, k: nat)
    requires 1 <= k && n < Pow2(k)
    ensures |ToBinary(n)| <= k
  {
    if n >= 2 {
      ToBinaryLength(n / 2, k - 1);
    }
  }

  /** `number.toString(2)` for an integer: a negative number is its magnitude's numeral after '-'. */
  function JsBinaryString(n: int): string
  {
    if n < 0 then "-" + ToBinary(-n) else ToBinary(n)
  }

  /** `s.padStart(width, '0')`. */
  function PadStart(s: string, width: nat): (r: string)
    ensures |r| == if |s| >= width then |s| else width
    ensures r[|r| - |s|..] == s
    ensures forall i :: 0 <= i < |r| - |s| ==> r[i] == '0'
  {
    if |s| >= width then s else seq(width - |s|, _ => '0') + s
  }

  /** generateHexagram: `number.toString(2).padStart(6, '0')`. A non-negative
      number gives '0'/'1' lines whose value it is, at least six of them. */
  function GenerateHexagram(n: int): (r: string)
    ensures n >= 0 ==> IsBits(r) && BitsValue(r) == n &&
                       |r| == if |ToBinary(n)| >= 6 then |ToBinary(n)| else 6
  {
    PaddedValue(n);
    PadStart(JsBinaryString(n), 6)
  }

  /** Pow2 grows with its exponent. */
  lemma {:induction false} Pow2Monotone(j: nat, k: nat)
    requires j <= k
    ensures Pow2(j) <= Pow2(k)
  {
    if j < k {
      Pow2Monotone(j, k - 1);
    }
  }

  /** Padding with '0' lines keeps the numeral's value. */
  lemma PaddedValue(n: int)
    ensures n >= 0 ==>
              var r := PadStart(JsBinaryString(n), 6);
              IsBits(r) && BitsValue(r) == n &&
              |r| == if |ToBinary(n)| >= 6 then |ToBinary(n)| else 6
  {
    if n >= 0 {
      var s := ToBinary(n);
      var r := PadStart(s, 6);
      assert r == r[..|r| - |s|] + s;
      LeadingZerosValue(r[..|r| - |s|], s);
    }
  }

  /** Exactly the numbers below 64 have numerals of at most six lines. */
  lemma ShortNumeral(n: nat)
    ensures n < 64 <==> |ToBinary(n)| <= 6
  {
    if n < 64 {
      ToBinaryLength(n, 6);
    } else if |ToBinary(n)| <= 6 {
      BitsValueBound(ToBinary(n));
      Pow2Monotone(|ToBinary(n)|, 6);
    }
  }

  /** A number 0..63 gives six lines whose value it is; a larger number keeps all
      its lines, and a negative one keeps its sign. */
  lemma GenerateHexagramValue(n: int)
    ensures n >= 0 ==> IsBits(GenerateHexagram(n)) && BitsValue(GenerateHexagram(n)) == n
    ensures 0 <= n < 64 <==> |GenerateHexagram(n)| == 6 && IsBits(GenerateHexagram(n))
    ensures n < 0 ==> '-' in GenerateHexagram(n)
  {
    if n >= 0 {
      ShortNumeral(n);
    } else {
      var s := JsBinaryString(n);
      var r := PadStart(s, 6);
      assert s[0] == '-';
      assert r[|r| - |s|] == '-';
    }
  }

  /** Every six lines are generated by exactly one number, their value. */
  lemma GenerateHexagramRoundTrip(s: string)
    requires |s| == 6 && IsBits(s)
    ensures 0 <= BitsValue(s) < 64 && GenerateHexagram(BitsValue(s)) == s
  {
    BitsValueBound(s);
    GenerateHexagramValue(BitsValue(s));
    BitsValueInjective(GenerateHexagram(BitsValue(s)), s);
  }

  /** Distinct numbers 0..63 give distinct hexagrams. */
  lemma GenerateHexagramInjective(m: int, n: int)
    requires 0 <= m < 64 && 0 <= n < 64 && m != n
    ensures GenerateHexagram(m) != GenerateHexagram(n)
  {
    GenerateHexagramValue(m);
    GenerateHexagramValue(n);
  }

  // ---------------------------------------------------------------------------
  // Changed (變) and hidden (伏) hexagrams
  // ---------------------------------------------------------------------------

  /** The opposite of a line: '0' becomes '1' and anything else '0'. */
  function Toggle(c: char): char
  {
    if c == '0' then '1' else '0'
  }

  /** Index i of the changed string: toggled when line |orig| - i is listed. */
  function ChangedLine(orig: string, lines: seq<int>, i: nat): char
    requires i < |orig|
  {
    if |orig| - i in lines then Toggle(orig[i]) else orig[i]
  }

  /** What generateChangedHexagram computes: with no list, or an empty one, the
      lines as given; otherwise each listed line toggled and every other line kept. */
  function Changed(orig: string, changingLines: Option<seq<int>>): (r: string)
    ensures |r| == |orig|
    ensures forall i :: 0 <= i < |orig| ==>
              (r[i] != orig[i] <==> changingLines.Some? && |orig| - i in changingLines.value)
    ensures forall i :: 0 <= i < |orig| && r[i] != orig[i] ==> r[i] == Toggle(orig[i])
  {
    if changingLines.None? || |changingLines.value| == 0 then orig
    else seq(|orig|, i requires 0 <= i < |orig| => ChangedLine(orig, changingLines.value, i))
  }

  /** generateChangedHexagram, building the result line by line. */
  method GenerateChangedHexagram(originalBinary: string, changingLines: Option<seq<int>>) returns (result: string)
    ensures result == Changed(originalBinary, changingLines)
  {
    if changingLines.None? || |changingLines.value| == 0 {
      return originalBinary;
    }
    var lines := changingLines.value;
    result := "";
    for i := 0 to |originalBinary|
      invariant |result| == i
      invariant forall k :: 0 <= k < i ==> result[k] == ChangedLine(originalBinary, lines, k)
    {
      var position := |originalBinary| - 1 - i;
      if position + 1 in lines {
        result := result + [if originalBinary[i] == '0' then '1' else '0'];
      } else {
        result := result + [originalBinary[i]];
      }
    }
  }

  /** On '0'/'1' lines, changing the same lines twice gives the lines back. */
  lemma ChangedTwice(orig: string, changingLines: Option<seq<int>>)
    requires IsBits(orig)
    ensures IsBits(Changed(orig, changingLines))
    ensures Changed(Changed(orig, changingLines), changingLines) == orig
  {
    var once := Changed(orig, changingLines);
    var twice := Changed(once, changingLines);
    assert forall i :: 0 <= i < |orig| ==> twice[i] == orig[i];
  }

  /** With the single line m, the change is the engine's flip of index 6 - m. */
  lemma ChangedAgreesWithEngineFlip(orig: string, m: int)
    requires |orig| == 6 && IsBits(orig)
    ensures Changed(orig, Some([m])) == HexagramEngine.FlipLine(orig, m)
  {
    var mine, engine := Changed(orig, Some([m])), HexagramEngine.FlipLine(orig, m);
    assert forall i :: 0 <= i < 6 ==> mine[i] == engine[i];
  }

  /** The complement of a line string. */
  function Complement(b: string): (r: string)
    ensures |r| == |b| && IsBits(r)
    ensures forall i :: 0 <= i < |b| ==> (r[i] == '1' <==> b[i] == '0')
  {
    seq(|b|, i requires 0 <= i < |b| => Toggle(b[i]))
  }

  /** generateHiddenHexagram, building the result line by line. */
  method GenerateHiddenHexagram(originalBinary: string) returns (result: string)
    ensures result == Complement(originalBinary)
  {
    result := "";
    for i := 0 to |originalBinary|
      invariant result == Complement(originalBinary[..i])
    {
      result := result + [if originalBinary[i] == '0' then '1' else '0'];
    }
    assert originalBinary[..|originalBinary|] == originalBinary;
  }

  /** The hidden hexagram of the hidden hexagram is the original. */
  lemma ComplementTwice(b: string)
    requires IsBits(b)
    ensures Complement(Complement(b)) == b
  {
  }

  /** As numerals, a line string and its complement add up to 2^k - 1. */
  lemma {:induction false} ComplementValue(b: string)
    requires IsBits(b)
    ensures BitsValue(b) + BitsValue(Complement(b)) == Pow2(|b|) - 1
  {
    if |b| > 0 {
      var n := |b|;
      ComplementValue(b[..n - 1]);
      assert Complement(b)[..n - 1] == Complement(b[..n - 1]);
    }
  }

  /** The hidden hexagram is the changed hexagram with every line moving. */
  lemma ComplementChangesEveryLine(b: string)
    requires |b| <= 6
    ensures Complement(b) == Changed(b, Some([1, 2, 3, 4, 5, 6]))
  {
    var all := Changed(b, Some([1, 2, 3, 4, 5, 6]));
    assert forall i :: 0 <= i < |b| ==> Complement(b)[i] == all[i];
  }

  // ---------------------------------------------------------------------------
  // Overlapping (互) hexagram
  // ---------------------------------------------------------------------------

  /** generateOverlappingHexagram as written: the upper part is `substr(3, 3)`,
      which for six lines is the original's lower trigram (lines 3, 2, 1). */
  function OverlappingAsWritten(originalBinary: string): (r: string)
    ensures |originalBinary| == 6 ==>
              |r| == 6 && r[..3] == originalBinary[3..6] && r[3..] == originalBinary[2..5]
  {
    var lowerPart := Substr(originalBinary, 2, 3);
    var upperPart := Substr(originalBinary, 3, 3);
    upperPart + lowerPart
  }

  /** The overlapping hexagram the comments describe: upper part lines 5, 4, 3
      (`substr(1, 3)`) over lower part lines 4, 3, 2 (`substr(2, 3)`). */
  function Overlapping(originalBinary: string): (r: string)
    ensures |originalBinary| == 6 ==>
              |r| == 6 && r[..3] == originalBinary[1..4] && r[3..] == originalBinary[2..5]
  {
    var lowerPart := Substr(originalBinary, 2, 3);
    var upperPart := Substr(originalBinary, 1, 3);
    upperPart + lowerPart
  }

  /** The corrected overlapping hexagram is the engine's mutual hexagram: on any
      original built from two table trigrams, it is the pattern of the mutual trigrams. */
  lemma OverlappingIsEngineMutual(trigrams: seq<Trigram>, upperNum: int, lowerNum: int)
    requires HexagramEngine.WellFormedTrigrams(trigrams)
    ensures var m := HexagramEngine.MutualTrigrams(trigrams, upperNum, lowerNum);
            Overlapping(HexagramEngine.FullPattern(trigrams, upperNum, lowerNum)) ==
            HexagramEngine.FullPattern(trigrams, m.0, m.1)
  {
    var r := Overlapping(HexagramEngine.FullPattern(trigrams, upperNum, lowerNum));
    assert r == r[..3] + r[3..];
  }

  /** 否 (乾 over 坤, "111000"): as written the result is "000100", whose upper
      trigram is the original's lower one; the mutual hexagram is "110100". */
  lemma OverlappingAsWrittenDiffers()
    ensures OverlappingAsWritten("111000") == "000100"
    ensures Overlapping("111000") == "110100"
    ensures OverlappingAsWritten("111000") != Overlapping("111000")
  {
    assert OverlappingAsWritten("111000")[..3] == "000";
    assert Overlapping("111000")[..3] == "110";
  }

  // ---------------------------------------------------------------------------
  // Catalog lookup and the main hexagram
  // ---------------------------------------------------------------------------

  /** findHexagramByBinary: the first record with these lines, undefined (None) when there is none. */
  function FindHexagramByBinary(binaryString: string, hexagramsData: seq<Hexagram>): (r: Option<Hexagram>)
    ensures r.None? <==> forall i :: 0 <= i < |hexagramsData| ==> hexagramsData[i].binary != binaryString
    ensures r.Some? ==> exists i :: 0 <= i < |hexagramsData| && hexagramsData[i] == r.value &&
                          r.value.binary == binaryString &&
                          forall j :: 0 <= j < i ==> hexagramsData[j].binary != binaryString
  {
    Find(hexagramsData, (h: Hexagram) => h.binary == binaryString)
  }

  /** calculateMainHexagram, with the clock reading `now` (milliseconds since the
      epoch) as a parameter: the question's length plus the time, modulo 64, with
      0 standing for 64. */
  function CalculateMainHexagram(question: string, now: int): (r: int)
    ensures now >= 0 ==> 1 <= r <= 64 && r % 64 == (|question| + now) % 64
  {
    var timeValue := JsRem(now, 64);
    var hexagramIndex := JsRem(|question| + timeValue, 64);
    if hexagramIndex == 0 then 64 else hexagramIndex
  }

  // ---------------------------------------------------------------------------
  // Changing lines (變爻) from a seed
  // ---------------------------------------------------------------------------

  /** The seed determineChangingLines derives from the clock's seconds and milliseconds and the question. */
  function Seed(question: string, seconds: nat, milliseconds: nat): nat
  {
    seconds + milliseconds + |question|
  }

  /** The line first proposed as the i-th changing line. */
  function Candidate(seed: nat, i: nat): int
  {
    (seed * (i + 1)) % 6 + 1
  }

  /** The first line from `line` onwards, going round 1..6, that `taken` does not
      hold, trying at most `budget` further lines. */
  function NextFree(taken: seq<int>, line: int, budget: nat): int
    decreases budget
  {
    if line !in taken || budget == 0 then line else NextFree(taken, line % 6 + 1, budget - 1)
  }

  /** With at most two lines taken, one of three consecutive lines is free. */
  lemma NextFreeIsFree(taken: seq<int>, line: int)
    requires |taken| <= 2 && 1 <= line <= 6
    ensures 1 <= NextFree(taken, line, 2) <= 6 && NextFree(taken, line, 2) !in taken
  {
  }

  /** The first `count` lines determineChangingLines picks, in the order it picks them. */
  function PickedLines(seed: nat, count: nat): seq<int>
  {
    if count == 0 then []
    else
      var earlier := PickedLines(seed, count - 1);
      earlier + [NextFree(earlier, Candidate(seed, count - 1), 2)]
  }

  /** Up to three picked lines are distinct lines 1..6. */
  lemma {:induction false} PickedLinesDistinct(seed: nat, count: nat)
    requires count <= 3
    ensures var p := PickedLines(seed, count);
            |p| == count &&
            (forall k :: 0 <= k < |p| ==> 1 <= p[k] <= 6) &&
            Distinct(p)
  {
    if count > 0 {
      PickedLinesDistinct(seed, count - 1);
      NextFreeIsFree(PickedLines(seed, count - 1), Candidate(seed, count - 1));
    }
  }

  /** `Array.prototype.sort` with the comparator `(a, b) => a - b`, as an insertion sort. */
  function SortAscending(s: seq<int>): seq<int>
  {
    if |s| == 0 then [] else Insert(s[0], SortAscending(s[1..]))
  }

  function Insert(x: int, s: seq<int>): seq<int>
  {
    if |s| == 0 || x <= s[0] then [x] + s else [s[0]] + Insert(x, s[1..])
  }

  predicate Ascending(s: seq<int>)
  {
    forall j, k :: 0 <= j < k < |s| ==> s[j] <= s[k]
  }

  lemma {:induction false} InsertPermutes(x: int, s: seq<int>)
    ensures multiset(Insert(x, s)) == multiset(s) + multiset{x}
  {
    if |s| > 0 && x > s[0] {
      InsertPermutes(x, s[1..]);
      assert s == [s[0]] + s[1..];
    }
  }

  lemma {:induction false} InsertKeepsOrder(x: int, s: seq<int>)
    requires Ascending(s)
    ensures Ascending(Insert(x, s)) && multiset(Insert(x, s)) == multiset(s) + multiset{x}
  {
    InsertPermutes(x, s);
    if |s| > 0 && x > s[0] {
      var rest := s[1..];
      InsertKeepsOrder(x, rest);
      var t := Insert(x, rest);
      forall k | 0 <= k < |t|
        ensures s[0] <= t[k]
      {
        assert t[k] in multiset(t);
        if t[k] != x {
          assert t[k] in rest;
        }
      }
      LeastFirst(s[0], t);
    }
  }

  /** Putting a least element in front of an ascending sequence keeps it ascending. */
  lemma LeastFirst(x: int, t: seq<int>)
    requires Ascending(t) && forall k :: 0 <= k < |t| ==> x <= t[k]
    ensures Ascending([x] + t)
  {
  }

  /** The sorted lines are the same lines, in ascending order. */
  lemma {:induction false} SortAscendingSorts(s: seq<int>)
    ensures Ascending(SortAscending(s)) && multiset(SortAscending(s)) == multiset(s)
  {
    if |s| > 0 {
      SortAscendingSorts(s[1..]);
      InsertKeepsOrder(s[0], SortAscending(s[1..]));
      assert s == [s[0]] + s[1..];
    }
  }

  predicate Distinct(s: seq<int>)
  {
    forall j, k :: 0 <= j < k < |s| ==> s[j] != s[k]
  }

  /** A value occurs at most once in a sequence of distinct values. */
  lemma {:induction false} DistinctCount(s: seq<int>, x: int)
    requires Distinct(s)
    ensures multiset(s)[x] <= 1
  {
    if |s| > 0 {
      DistinctCount(s[1..], x);
      assert s == [s[0]] + s[1..];
      if s[0] == x {
        assert x !in s[1..];
      }
    }
  }

  /** A value at two indices occurs at least twice. */
  lemma CountTwo(s: seq<int>, j: int, k: int)
    requires 0 <= j < k < |s| && s[j] == s[k]
    ensures multiset(s)[s[j]] >= 2
  {
    assert s == s[..j] + [s[j]] + s[j + 1..k] + [s[k]] + s[k + 1..];
  }

  /** A rearrangement of distinct values has distinct values. */
  lemma DistinctByMultiset(s: seq<int>, t: seq<int>)
    requires multiset(s) == multiset(t) && Distinct(t)
    ensures Distinct(s)
  {
    forall j, k | 0 <= j < k < |s|
      ensures s[j] != s[k]
    {
      if s[j] == s[k] {
        CountTwo(s, j, k);
        DistinctCount(t, s[j]);
      }
    }
  }

  /** What determineChangingLines returns for a seed: its picked lines, sorted. */
  function ChangingLines(seed: nat): seq<int>
  {
    SortAscending(PickedLines(seed, seed % 3 + 1))
  }

  /** One to three changing lines (seed % 3 + 1 of them), distinct, each 1..6, in
      ascending order, and exactly the lines picked. */
  lemma ChangingLinesWellFormed(seed: nat)
    ensures var lines := ChangingLines(seed);
            |lines| == seed % 3 + 1 &&
            (forall k :: 0 <= k < |lines| ==> 1 <= lines[k] <= 6) &&
            (forall j, k :: 0 <= j < k < |lines| ==> lines[j] < lines[k]) &&
            multiset(lines) == multiset(PickedLines(seed, seed % 3 + 1))
  {
    var picked := PickedLines(seed, seed % 3 + 1);
    var lines := ChangingLines(seed);
    PickedLinesDistinct(seed, seed % 3 + 1);
    SortAscendingSorts(picked);
    DistinctByMultiset(lines, picked);
    assert |lines| == |multiset(lines)| == |multiset(picked)| == |picked|;
    forall k | 0 <= k < |lines|
      ensures 1 <= lines[k] <= 6
    {
      assert lines[k] in multiset(picked);
    }
  }

  /** The first proposals never clash, so the de-duplicating loop never moves a
      line: the picked lines are the candidates themselves. */
  lemma CandidatesNeverClash(seed: nat)
    ensures var p := PickedLines(seed, seed % 3 + 1);
            forall i :: 0 <= i < |p| ==> p[i] == Candidate(seed, i)
  {
    DistinctCandidates(seed);
    assert PickedLines(seed, 0) == [];
    var p1 := PickedLines(seed, 1);
    assert p1 == [Candidate(seed, 0)];
    if seed % 3 >= 1 {
      var p2 := PickedLines(seed, 2);
      assert p2 == p1 + [Candidate(seed, 1)];
      if seed % 3 == 2 {
        assert Candidate(seed, 2) !in p2;
        assert PickedLines(seed, 3) == p2 + [Candidate(seed, 2)];
      }
    }
  }

  /** The candidates for one seed are distinct: two of them for a seed of residue 1
      modulo 3 and three for residue 2. */
  lemma DistinctCandidates(seed: nat)
    ensures seed % 3 >= 1 ==> Candidate(seed, 1) != Candidate(seed, 0)
    ensures seed % 3 == 2 ==> Candidate(seed, 2) != Candidate(seed, 0) && Candidate(seed, 2) != Candidate(seed, 1)
  {
    var r := seed % 6;
    assert seed % 3 == r % 3;
    SecondCandidate(seed);
    ThirdCandidate(seed);
  }

  /** Remainders modulo 6 add. */
  lemma ModSixAdd(a: nat, b: nat)
    ensures (a + b) % 6 == (a % 6 + b % 6) % 6
  {
  }

  /** The second candidate depends only on the seed's residue modulo 6. */
  lemma SecondCandidate(seed: nat)
    ensures Candidate(seed, 1) == (2 * (seed % 6)) % 6 + 1
  {
    assert seed * (1 + 1) == seed + seed;
    ModSixAdd(seed, seed);
  }

  /** The third candidate depends only on the seed's residue modulo 6. */
  lemma ThirdCandidate(seed: nat)
    ensures Candidate(seed, 2) == (3 * (seed % 6)) % 6 + 1
  {
    assert seed * (2 + 1) == (seed + seed) + seed;
    ModSixAdd(seed, seed);
    ModSixAdd(seed + seed, seed);
  }

  /** determineChangingLines, with the clock's seconds and milliseconds as parameters
      (the clock never reports negative ones). */
  method DetermineChangingLines(question: string, seconds: int, milliseconds: int) returns (lines: seq<int>)
    requires seconds >= 0 && milliseconds >= 0
    ensures lines == ChangingLines(Seed(question, seconds, milliseconds))
    ensures |lines| == Seed(question, seconds, milliseconds) % 3 + 1
    ensures forall k :: 0 <= k < |lines| ==> 1 <= lines[k] <= 6
    ensures forall j, k :: 0 <= j < k < |lines| ==> lines[j] < lines[k]
  {
    var seed := seconds + milliseconds + |question|;
    var numberOfChanges := (seed % 3) + 1;
    var changingLines: seq<int> := [];
    for i := 0 to numberOfChanges
      invariant changingLines == PickedLines(seed, i)
    {
      var line := ((seed * (i + 1)) % 6) + 1;
      ghost var target := NextFree(changingLines, Candidate(seed, i), 2);
      assert target !in changingLines by {
        PickedLinesDistinct(seed, i);
        NextFreeIsFree(changingLines, Candidate(seed, i));
      }
      ghost var budget: nat := 2;
      while line in changingLines
        invariant NextFree(changingLines, line, budget) == target
        decreases budget
      {
        line := (line % 6) + 1;
        budget := budget - 1;
      }
      changingLines := changingLines + [line];
    }
    lines := SortAscending(changingLines);
    assert seed == Seed(question, seconds, milliseconds);
    ChangingLinesWellFormed(seed);
  }

  // ---------------------------------------------------------------------------
  // Decorating a hexagram with its trigrams
  // ---------------------------------------------------------------------------

  /** What enhanceHexagramWithTrigramInfo returns for a hexagram it is given: the
      record as it was, or the record decorated. */
  datatype Decoration = Plain(hexagram: Hexagram) | Enhanced(enhanced: EnhancedHexagram)

  /** All nine descriptive fields of a trigram, `animal` and `body` included. */
  function FullInfo(t: Trigram): TrigramInfo
  {
    TrigramInfo(t.name, t.character, t.nature, t.element, t.family, t.position, t.temperament, t.animal, t.body)
  }

  /** The line summaries; every entry is null when the record has no line texts. */
  function YaoSummaries(yao: Option<seq<Yao>>): YaoCombination
  {
    match yao
    case None => YaoCombination(None, None, None, None, None, None, None)
    case Some(ys) => EnhanceHexagramData.GetYaoCombination(ys)
  }

  /** enhanceHexagramWithTrigramInfo: no hexagram gives null; an empty trigram table
      or a trigram number that indexes nothing gives the record back unchanged;
      otherwise the record is decorated with both trigrams' nine fields, their
      bottom-then-top combination and its line summaries. */
  function EnhanceHexagramWithTrigramInfo(hexagram: Option<Hexagram>, trigrams: seq<Trigram>): (r: Option<Decoration>)
    ensures r.None? <==> hexagram.None?
    ensures r.Some? && r.value.Plain? ==> r.value.hexagram == hexagram.value
    ensures r.Some? && r.value.Enhanced? <==>
              hexagram.Some? && 1 <= hexagram.value.topTrigram <= |trigrams| &&
              1 <= hexagram.value.bottomTrigram <= |trigrams|
    ensures r.Some? && r.value.Enhanced? ==>
              var h, e := hexagram.value, r.value.enhanced;
              var top, bottom := trigrams[h.topTrigram - 1], trigrams[h.bottomTrigram - 1];
              e.base == h &&
              EnhanceHexagramData.DescribesTrigram(e.topTrigramInfo, top) &&
              e.topTrigramInfo.animal == top.animal && e.topTrigramInfo.body == top.body &&
              EnhanceHexagramData.DescribesTrigram(e.bottomTrigramInfo, bottom) &&
              e.bottomTrigramInfo.animal == bottom.animal && e.bottomTrigramInfo.body == bottom.body &&
              e.combinedAttributes == EnhanceHexagramData.Combine(bottom, top) &&
              forall k: nat :: k < 7 ==>
                (e.yaoCombination.Entry(k).None? <==> h.yao.None? || k >= |h.yao.value|)
  {
    match hexagram
    case None => None
    case Some(h) =>
      if |trigrams| == 0 then Some(Plain(h))
      else
        var topTrigramIndex, bottomTrigramIndex := h.topTrigram - 1, h.bottomTrigram - 1;
        if !(0 <= topTrigramIndex < |trigrams|) || !(0 <= bottomTrigramIndex < |trigrams|) then Some(Plain(h))
        else
          var top, bottom := trigrams[topTrigramIndex], trigrams[bottomTrigramIndex];
          Some(Enhanced(EnhancedHexagram(h, FullInfo(top), FullInfo(bottom),
                                         EnhanceHexagramData.Combine(bottom, top), YaoSummaries(h.yao))))
  }

  /** Where the dataset decorator of src/utils/enhanceHexagramData.js succeeds, this
      decorator gives the same record, except that it also copies `animal` and `body`. */
  lemma DecorationsAgree(h: Hexagram, trigrams: seq<Trigram>)
    requires EnhanceHexagramData.EnhanceHexagram(h, trigrams).Some?
    ensures var brief := EnhanceHexagramData.EnhanceHexagram(h, trigrams).value;
            var top, bottom := trigrams[h.topTrigram - 1], trigrams[h.bottomTrigram - 1];
            EnhanceHexagramWithTrigramInfo(Some(h), trigrams) ==
            Some(Enhanced(brief.(topTrigramInfo := brief.topTrigramInfo.(animal := top.animal, body := top.body),
                                 bottomTrigramInfo := brief.bottomTrigramInfo.(animal := bottom.animal, body := bottom.body))))
  {
  }

  // ---------------------------------------------------------------------------
  // Element, family and temperament classifiers
  // ---------------------------------------------------------------------------

  /** The relations table of analyzeElements, keyed by lower element then upper element. */
  const ElementRelations: map<string, string> := map[
    "金金" := "相生", "金水" := "金生水", "金木" := "金剋木", "金火" := "金被火剋", "金土" := "金被土生",
    "水水" := "相生", "水木" := "水生木", "水火" := "水剋火", "水土" := "水被土剋", "水金" := "水被金生",
    "木木" := "相生", "木火" := "木生火", "木土" := "木剋土", "木金" := "木被金剋", "木水" := "木被水生",
    "火火" := "相生", "火土" := "火生土", "火金" := "火剋金", "火水" := "火被水剋", "火木" := "火被木生",
    "土土" := "相生", "土金" := "土生金", "土水" := "土剋水", "土火" := "土被火生", "土木" := "土被木剋"]

  const ComplexElements := "五行關係複雜"

  /** The sentence for two equal elements. */
  function SameElementSentence(element: string): string
  {
    "兩者相同，呈現" + element + "生" + element + "的和諧之象"
  }

  /** `table[key] || fallback` for a table of non-empty phrases. */
  function LookupOr(table: map<string, string>, key: string, fallback: string): string
  {
    if key in table then table[key] else fallback
  }

  /** analyzeElements: the harmony sentence for equal elements, otherwise the table's
      phrase for lower-then-upper, or the fallback when the table has none. */
  function AnalyzeElements(bottomElement: string, topElement: string): (r: string)
    ensures bottomElement == topElement ==> r == SameElementSentence(bottomElement)
    ensures bottomElement != topElement && bottomElement + topElement !in ElementRelations ==> r == ComplexElements
    ensures bottomElement != topElement && bottomElement + topElement in ElementRelations ==>
              r == ElementRelations[bottomElement + topElement]
  {
    if bottomElement == topElement then SameElementSentence(bottomElement)
    else LookupOr(ElementRelations, bottomElement + topElement, ComplexElements)
  }

  /** How the lower element stands to the upper one, said from the lower one's side
      and read off the generating cycle 金 → 水 → 木 → 火 → 土 → 金 (each element
      generates the next and overcomes the one after). */
  function ElementPhrase(bottom: nat, top: nat): string
    requires bottom < 5 && top < 5
  {
    var b, t := HexagramEngine.Cycle[bottom], HexagramEngine.Cycle[top];
    match (top - bottom) % 5
    case 0 => "相生"
    case 1 => b + "生" + t
    case 2 => b + "剋" + t
    case 3 => b + "被" + t + "剋"
    case _ => b + "被" + t + "生"
  }

  /** Every entry of the table is the phrase the two cycles give. */
  lemma ElementRelationsFollowCycles(bottom: nat, top: nat)
    requires bottom < 5 && top < 5
    ensures HexagramEngine.Cycle[bottom] + HexagramEngine.Cycle[top] in ElementRelations
    ensures ElementRelations[HexagramEngine.Cycle[bottom] + HexagramEngine.Cycle[top]] == ElementPhrase(bottom, top)
  {
    if bottom == 0 {
      ElementRowMetal(top);
    } else if bottom == 1 {
      ElementRowWater(top);
    } else if bottom == 2 {
      ElementRowWood(top);
    } else if bottom == 3 {
      ElementRowFire(top);
    } else {
      ElementRowEarth(top);
    }
  }

  /** The table row of lower element 金. */
  lemma ElementRowMetal(top: nat)
    requires top < 5
    ensures HexagramEngine.Cycle[0] + HexagramEngine.Cycle[top] in ElementRelations
    ensures ElementRelations[HexagramEngine.Cycle[0] + HexagramEngine.Cycle[top]] == ElementPhrase(0, top)
  {
    ElementCellsMetal();
    if top == 0 {
      assert HexagramEngine.Cycle[0] + HexagramEngine.Cycle[top] == "金金";
    } else if top == 1 {
      assert HexagramEngine.Cycle[0] + HexagramEngine.Cycle[top] == "金水";
    } else if top == 2 {
      assert HexagramEngine.Cycle[0] + HexagramEngine.Cycle[top] == "金木";
    } else if top == 3 {
      assert HexagramEngine.Cycle[0] + HexagramEngine.Cycle[top] == "金火";
    } else {
      assert HexagramEngine.Cycle[0] + HexagramEngine.Cycle[top] == "金土";
    }
  }

  /** The entries of row 金, read off the table. */
  lemma ElementCellsMetal()
    ensures "金金" in ElementRelations && ElementRelations["金金"] == "相生" && ElementPhrase(0, 0) == "相生"
    ensures "金水" in ElementRelations && ElementRelations["金水"] == "金生水" && ElementPhrase(0, 1) == "金生水"
    ensures "金木" in ElementRelations && ElementRelations["金木"] == "金剋木" && ElementPhrase(0, 2) == "金剋木"
    ensures "金火" in ElementRelations && ElementRelations["金火"] == "金被火剋" && ElementPhrase(0, 3) == "金被火剋"
    ensures "金土" in ElementRelations && ElementRelations["金土"] == "金被土生" && ElementPhrase(0, 4) == "金被土生"
  {
  }

  /** The table row of lower element 水. */
  lemma ElementRowWater(top: nat)
    requires top < 5
    ensures HexagramEngine.Cycle[1] + HexagramEngine.Cycle[top] in ElementRelations
    ensures ElementRelations[HexagramEngine.Cycle[1] + HexagramEngine.Cycle[top]] == ElementPhrase(1, top)
  {
    ElementCellsWater();
    if top == 0 {
      assert HexagramEngine.Cycle[1] + HexagramEngine.Cycle[top] == "水金";
    } else if top == 1 {
      assert HexagramEngine.Cycle[1] + HexagramEngine.Cycle[top] == "水水";
    } else if top == 2 {
      assert HexagramEngine.Cycle[1] + HexagramEngine.Cycle[top] == "水木";
    } else if top == 3 {
      assert HexagramEngine.Cycle[1] + HexagramEngine.Cycle[top] == "水火";
    } else {
      assert HexagramEngine.Cycle[1] + HexagramEngine.Cycle[top] == "水土";
    }
  }

  /** The entries of row 水, read off the table. */
  lemma ElementCellsWater()
    ensures "水金" in ElementRelations && ElementRelations["水金"] == "水被金生" && ElementPhrase(1, 0) == "水被金生"
    ensures "水水" in ElementRelations && ElementRelations["水水"] == "相生" && ElementPhrase(1, 1) == "相生"
    ensures "水木" in ElementRelations && ElementRelations["水木"] == "水生木" && ElementPhrase(1, 2) == "水生木"
    ensures "水火" in ElementRelations && ElementRelations["水火"] == "水剋火" && ElementPhrase(1, 3) == "水剋火"
    ensures "水土" in ElementRelations && ElementRelations["水土"] == "水被土剋" && ElementPhrase(1, 4) == "水被土剋"
  {
  }

  /** The table row of lower element 木. */
  lemma ElementRowWood(top: nat)
    requires top < 5
    ensures HexagramEngine.Cycle[2] + HexagramEngine.Cycle[top] in ElementRelations
    ensures ElementRelations[HexagramEngine.Cycle[2] + HexagramEngine.Cycle[top]] == ElementPhrase(2, top)
  {
    ElementCellsWood();
    if top == 0 {
      assert HexagramEngine.Cycle[2] + HexagramEngine.Cycle[top] == "木金";
    } else if top == 1 {
      assert HexagramEngine.Cycle[2] + HexagramEngine.Cycle[top] == "木水";
    } else if top == 2 {
      assert HexagramEngine.Cycle[2] + HexagramEngine.Cycle[top] == "木木";
    } else if top == 3 {
      assert HexagramEngine.Cycle[2] + HexagramEngine.Cycle[top] == "木火";
    } else {
      assert HexagramEngine.Cycle[2] + HexagramEngine.Cycle[top] == "木土";
    }
  }

  /** The entries of row 木, read off the table. */
  lemma ElementCellsWood()
    ensures "木金" in ElementRelations && ElementRelations["木金"] == "木被金剋" && ElementPhrase(2, 0) == "木被金剋"
    ensures "木水" in ElementRelations && ElementRelations["木水"] == "木被水生" && ElementPhrase(2, 1) == "木被水生"
    ensures "木木" in ElementRelations && ElementRelations["木木"] == "相生" && ElementPhrase(2, 2) == "相生"
    ensures "木火" in ElementRelations && ElementRelations["木火"] == "木生火" && ElementPhrase(2, 3) == "木生火"
    ensures "木土" in ElementRelations && ElementRelations["木土"] == "木剋土" && ElementPhrase(2, 4) == "木剋土"
  {
  }

  /** The table row of lower element 火. */
  lemma ElementRowFire(top: nat)
    requires top < 5
    ensures HexagramEngine.Cycle[3] + HexagramEngine.Cycle[top] in ElementRelations
    ensures ElementRelations[HexagramEngine.Cycle[3] + HexagramEngine.Cycle[top]] == ElementPhrase(3, top)
  {
    ElementCellsFire();
    if top == 0 {
      assert HexagramEngine.Cycle[3] + HexagramEngine.Cycle[top] == "火金";
    } else if top == 1 {
      assert HexagramEngine.Cycle[3] + HexagramEngine.Cycle[top] == "火水";
    } else if top == 2 {
      assert HexagramEngine.Cycle[3] + HexagramEngine.Cycle[top] == "火木";
    } else if top == 3 {
      assert HexagramEngine.Cycle[3] + HexagramEngine.Cycle[top] == "火火";
    } else {
      assert HexagramEngine.Cycle[3] + HexagramEngine.Cycle[top] == "火土";
    }
  }

  /** The entries of row 火, read off the table. */
  lemma ElementCellsFire()
    ensures "火金" in ElementRelations && ElementRelations["火金"] == "火剋金" && ElementPhrase(3, 0) == "火剋金"
    ensures "火水" in ElementRelations && ElementRelations["火水"] == "火被水剋" && ElementPhrase(3, 1) == "火被水剋"
    ensures "火木" in ElementRelations && ElementRelations["火木"] == "火被木生" && ElementPhrase(3, 2) == "火被木生"
    ensures "火火" in ElementRelations && ElementRelations["火火"] == "相生" && ElementPhrase(3, 3) == "相生"
    ensures "火土" in ElementRelations && ElementRelations["火土"] == "火生土" && ElementPhrase(3, 4) == "火生土"
  {
  }

  /** The table row of lower element 土. */
  lemma ElementRowEarth(top: nat)
    requires top < 5
    ensures HexagramEngine.Cycle[4] + HexagramEngine.Cycle[top] in ElementRelations
    ensures ElementRelations[HexagramEngine.Cycle[4] + HexagramEngine.Cycle[top]] == ElementPhrase(4, top)
  {
    ElementCellsEarth();
    if top == 0 {
      assert HexagramEngine.Cycle[4] + HexagramEngine.Cycle[top] == "土金";
    } else if top == 1 {
      assert HexagramEngine.Cycle[4] + HexagramEngine.Cycle[top] == "土水";
    } else if top == 2 {
      assert HexagramEngine.Cycle[4] + HexagramEngine.Cycle[top] == "土木";
    } else if top == 3 {
      assert HexagramEngine.Cycle[4] + HexagramEngine.Cycle[top] == "土火";
    } else {
      assert HexagramEngine.Cycle[4] + HexagramEngine.Cycle[top] == "土土";
    }
  }

  /** The entries of row 土, read off the table. */
  lemma ElementCellsEarth()
    ensures "土金" in ElementRelations && ElementRelations["土金"] == "土生金" && ElementPhrase(4, 0) == "土生金"
    ensures "土水" in ElementRelations && ElementRelations["土水"] == "土剋水" && ElementPhrase(4, 1) == "土剋水"
    ensures "土木" in ElementRelations && ElementRelations["土木"] == "土被木剋" && ElementPhrase(4, 2) == "土被木剋"
    ensures "土火" in ElementRelations && ElementRelations["土火"] == "土被火生" && ElementPhrase(4, 3) == "土被火生"
    ensures "土土" in ElementRelations && ElementRelations["土土"] == "相生" && ElementPhrase(4, 4) == "相生"
  {
  }

  /** For two different elements the answer is never the fallback: it is the
      phrase of the two cycles. */
  lemma AnalyzeElementsFollowsCycles(bottom: nat, top: nat)
    requires bottom < 5 && top < 5 && bottom != top
    ensures AnalyzeElements(HexagramEngine.Cycle[bottom], HexagramEngine.Cycle[top]) == ElementPhrase(bottom, top)
  {
    ElementRelationsFollowCycles(bottom, top);
  }

  /** simplifyFamily: the first matching kinship keyword decides the short term; a
      family with none of the keywords is kept as it is. */
  function SimplifyFamily(family: string): (r: string)
    ensures Contains(family, "父") ==> r == "父"
    ensures !Contains(family, "父") && (Contains(family, "母") || Contains(family, "女")) ==> r == "母"
    ensures (!Contains(family, "父") && !Contains(family, "母") && !Contains(family, "女") &&
             Contains(family, "長男")) ==> r == "兄"
    ensures (!Contains(family, "父") && !Contains(family, "母") && !Contains(family, "女") && !Contains(family, "長男") &&
             (Contains(family, "中男") || Contains(family, "少男"))) ==> r == "弟"
    ensures (!Contains(family, "父") && !Contains(family, "母") && !Contains(family, "女") && !Contains(family, "長男") &&
             !Contains(family, "中男") && !Contains(family, "少男") && Contains(family, "子")) ==> r == "子"
    ensures HasKinshipKeyword(family) ==> r in ShortTerms
    ensures !HasKinshipKeyword(family) ==> r == family
  {
    if Contains(family, "父") then "父"
    else if Contains(family, "母") || Contains(family, "女") then "母"
    else if Contains(family, "長男") then "兄"
    else if Contains(family, "中男") || Contains(family, "少男") then "弟"
    else if Contains(family, "子") then "子"
    else family
  }

  /** The family holds one of the kinship keywords simplifyFamily looks for. */
  predicate HasKinshipKeyword(family: string)
  {
    Contains(family, "父") || Contains(family, "母") || Contains(family, "女") || Contains(family, "長男") ||
    Contains(family, "中男") || Contains(family, "少男") || Contains(family, "子")
  }

  const ShortTerms: seq<string> := ["父", "母", "兄", "弟", "子"]

  /** The eight trigrams' family terms: the father and the mother keep their term,
      the eldest son becomes 兄, the middle and youngest sons 弟, and all three
      daughters 母, because 女 is checked before 長男. */
  lemma TrigramFamilyTerms()
    ensures SimplifyFamily("父") == "父" && SimplifyFamily("母") == "母"
    ensures SimplifyFamily("長男") == "兄" && SimplifyFamily("中男") == "弟" && SimplifyFamily("少男") == "弟"
    ensures SimplifyFamily("長女") == "母" && SimplifyFamily("中女") == "母" && SimplifyFamily("少女") == "母"
  {
  }

  /** Simplifying twice is simplifying once: each short term simplifies to itself. */
  lemma SimplifyFamilyIdempotent(family: string)
    ensures SimplifyFamily(SimplifyFamily(family)) == SimplifyFamily(family)
  {
    ShortTermsAreFixed();
  }

  /** A one-character string contains a non-empty string only when it is that string. */
  lemma ContainsInSingle(c: char, sub: string)
    requires |sub| >= 1
    ensures Contains([c], sub) <==> sub == [c]
  {
    assert [c][1..] == [];
  }

  /** The five short terms contain exactly their own keyword. */
  lemma ShortTermsAreFixed()
    ensures forall t :: t in ShortTerms ==> SimplifyFamily(t) == t
  {
    forall t | t in ShortTerms
      ensures SimplifyFamily(t) == t
    {
      assert |t| == 1;
      forall sub | sub in ["父", "母", "女", "長男", "中男", "少男", "子"]
        ensures Contains(t, sub) <==> sub == t
      {
        ContainsInSingle(t[0], sub);
        assert t == [t[0]];
      }
    }
  }

  /** The relations table of analyzeFamilyRelation, keyed by lower term then upper term. */
  const FamilyRelations: map<string, string> := map[
    "父父" := "強勢而剛健", "父母" := "剛強而柔順", "父兄" := "權威和教導", "父弟" := "引導與保護", "父子" := "教導與培養",
    "母父" := "柔順與堅定", "母母" := "柔順而和諧", "母兄" := "關愛與指導", "母弟" := "照顧與呵護", "母子" := "養育與關懷",
    "兄父" := "尊敬與學習", "兄母" := "依賴與照顧", "兄兄" := "競爭與合作", "兄弟" := "互助與共進", "兄子" := "引領與影響",
    "弟父" := "順從與依靠", "弟母" := "親近與依賴", "弟兄" := "學習與追隨", "弟弟" := "和諧與協作", "弟子" := "成長與發展",
    "子父" := "尊重與承傳", "子母" := "依附與滋養", "子兄" := "學習與仰望", "子弟" := "友愛與同行", "子子" := "延續與希望"]

  const ComplexFamily := "家庭關係複雜多變"

  /** analyzeFamilyRelation: the table's phrase for the two simplified terms, or the fallback. */
  function AnalyzeFamilyRelation(bottomFamily: string, topFamily: string): (r: string)
    ensures SimplifyFamily(bottomFamily) + SimplifyFamily(topFamily) !in FamilyRelations ==> r == ComplexFamily
    ensures SimplifyFamily(bottomFamily) + SimplifyFamily(topFamily) in FamilyRelations ==>
              r == FamilyRelations[SimplifyFamily(bottomFamily) + SimplifyFamily(topFamily)]
  {
    var bottomSimple := SimplifyFamily(bottomFamily);
    var topSimple := SimplifyFamily(topFamily);
    LookupOr(FamilyRelations, bottomSimple + topSimple, ComplexFamily)
  }

  /** The table covers every pair of short terms. */
  lemma FamilyRelationsCoverShortTerms(b: nat, t: nat)
    requires b < 5 && t < 5
    ensures ShortTerms[b] + ShortTerms[t] in FamilyRelations
  {
    if b == 0 {
      FamilyRowFather(t);
    } else if b == 1 {
      FamilyRowMother(t);
    } else if b == 2 {
      FamilyRowElder(t);
    } else if b == 3 {
      FamilyRowYounger(t);
    } else {
      FamilyRowChild(t);
    }
  }

  /** The table row of lower term 父. */
  lemma FamilyRowFather(t: nat)
    requires t < 5
    ensures ShortTerms[0] + ShortTerms[t] in FamilyRelations
  {
    if t == 0 {
      assert ShortTerms[0] + ShortTerms[t] == "父父";
    } else if t == 1 {
      assert ShortTerms[0] + ShortTerms[t] == "父母";
    } else if t == 2 {
      assert ShortTerms[0] + ShortTerms[t] == "父兄";
    } else if t == 3 {
      assert ShortTerms[0] + ShortTerms[t] == "父弟";
    } else {
      assert ShortTerms[0] + ShortTerms[t] == "父子";
    }
  }

  /** The table row of lower term 母. */
  lemma FamilyRowMother(t: nat)
    requires t < 5
    ensures ShortTerms[1] + ShortTerms[t] in FamilyRelations
  {
    if t == 0 {
      assert ShortTerms[1] + ShortTerms[t] == "母父";
    } else if t == 1 {
      assert ShortTerms[1] + ShortTerms[t] == "母母";
    } else if t == 2 {
      assert ShortTerms[1] + ShortTerms[t] == "母兄";
    } else if t == 3 {
      assert ShortTerms[1] + ShortTerms[t] == "母弟";
    } else {
      assert ShortTerms[1] + ShortTerms[t] == "母子";
    }
  }

  /** The table row of lower term 兄. */
  lemma FamilyRowElder(t: nat)
    requires t < 5
    ensures ShortTerms[2] + ShortTerms[t] in FamilyRelations
  {
    if t == 0 {
      assert ShortTerms[2] + ShortTerms[t] == "兄父";
    } else if t == 1 {
      assert ShortTerms[2] + ShortTerms[t] == "兄母";
    } else if t == 2 {
      assert ShortTerms[2] + ShortTerms[t] == "兄兄";
    } else if t == 3 {
      assert ShortTerms[2] + ShortTerms[t] == "兄弟";
    } else {
      assert ShortTerms[2] + ShortTerms[t] == "兄子";
    }
  }

  /** The table row of lower term 弟. */
  lemma FamilyRowYounger(t: nat)
    requires t < 5
    ensures ShortTerms[3] + ShortTerms[t] in FamilyRelations
  {
    if t == 0 {
      assert ShortTerms[3] + ShortTerms[t] == "弟父";
    } else if t == 1 {
      assert ShortTerms[3] + ShortTerms[t] == "弟母";
    } else if t == 2 {
      assert ShortTerms[3] + ShortTerms[t] == "弟兄";
    } else if t == 3 {
      assert ShortTerms[3] + ShortTerms[t] == "弟弟";
    } else {
      assert ShortTerms[3] + ShortTerms[t] == "弟子";
    }
  }

  /** The table row of lower term 子. */
  lemma FamilyRowChild(t: nat)
    requires t < 5
    ensures ShortTerms[4] + ShortTerms[t] in FamilyRelations
  {
    if t == 0 {
      assert ShortTerms[4] + ShortTerms[t] == "子父";
    } else if t == 1 {
      assert ShortTerms[4] + ShortTerms[t] == "子母";
    } else if t == 2 {
      assert ShortTerms[4] + ShortTerms[t] == "子兄";
    } else if t == 3 {
      assert ShortTerms[4] + ShortTerms[t] == "子弟";
    } else {
      assert ShortTerms[4] + ShortTerms[t] == "子子";
    }
  }

  /** Two families that both name a kinship keyword always get a phrase from the
      table, never the fallback. */
  lemma FamilyKnownForKinshipTerms(bottomFamily: string, topFamily: string)
    requires HasKinshipKeyword(bottomFamily) && HasKinshipKeyword(topFamily)
    ensures AnalyzeFamilyRelation(bottomFamily, topFamily) != ComplexFamily
  {
    var b :| 0 <= b < 5 && ShortTerms[b] == SimplifyFamily(bottomFamily);
    var t :| 0 <= t < 5 && ShortTerms[t] == SimplifyFamily(topFamily);
    FamilyRelationsCoverShortTerms(b, t);
    assert FamilyRelations[ShortTerms[b] + ShortTerms[t]] != ComplexFamily;
  }

  /** The temperament pairs of analyzeTemperament, keyed by lower then upper temperament. */
  const TemperamentPairs: map<string, string> := map[
    "健健" := "剛健無比", "健悅" := "剛健而愉快", "健麗" := "剛健而光明", "健動" := "剛健而活潑", "健入" := "剛健而柔順",
    "悅健" := "愉快而剛健", "悅悅" := "愉快無比", "悅麗" := "愉快而光明", "悅動" := "愉快而活潑", "悅入" := "愉快而柔順",
    "麗健" := "光明而剛健", "麗悅" := "光明而愉快", "麗麗" := "光明無比", "麗動" := "光明而活潑", "麗入" := "光明而柔順",
    "動健" := "活潑而剛健", "動悅" := "活潑而愉快", "動麗" := "活潑而光明", "動動" := "活潑無比", "動入" := "活潑而柔順",
    "入健" := "柔順而剛健", "入悅" := "柔順而愉快", "入麗" := "柔順而光明", "入動" := "柔順而活潑", "入入" := "柔順無比"]

  const ComplexTemperament := "性情關係多樣複雜"

  /** The sentence for two equal temperaments. */
  function SameTemperamentSentence(temperament: string): string
  {
    "兩者性情相似，互相呼應，展現出" + temperament + "的整體氣象"
  }

  /** analyzeTemperament: the resonance sentence for equal temperaments, otherwise
      the table's phrase for lower-then-upper, or the fallback. */
  function AnalyzeTemperament(bottomTemperament: string, topTemperament: string): (r: string)
    ensures bottomTemperament == topTemperament ==> r == SameTemperamentSentence(bottomTemperament)
    ensures bottomTemperament != topTemperament && bottomTemperament + topTemperament !in TemperamentPairs ==>
              r == ComplexTemperament
    ensures bottomTemperament != topTemperament && bottomTemperament + topTemperament in TemperamentPairs ==>
              r == TemperamentPairs[bottomTemperament + topTemperament]
  {
    if bottomTemperament == topTemperament then SameTemperamentSentence(bottomTemperament)
    else LookupOr(TemperamentPairs, bottomTemperament + topTemperament, ComplexTemperament)
  }

  /** The five temperaments the table knows and the word each stands for. */
  const Temperaments: seq<string> := ["健", "悅", "麗", "動", "入"]
  const TemperamentWords: seq<string> := ["剛健", "愉快", "光明", "活潑", "柔順"]

  /** Each pair phrase joins the two temperaments' words with 而; a doubled one is 無比. */
  function TemperamentPhrase(bottom: nat, top: nat): string
    requires bottom < 5 && top < 5
  {
    if bottom == top then TemperamentWords[bottom] + "無比"
    else TemperamentWords[bottom] + "而" + TemperamentWords[top]
  }

  /** Every entry of the pair table is the phrase built from the two words. */
  lemma TemperamentPairsFollowWords(bottom: nat, top: nat)
    requires bottom < 5 && top < 5
    ensures Temperaments[bottom] + Temperaments[top] in TemperamentPairs
    ensures TemperamentPairs[Temperaments[bottom] + Temperaments[top]] == TemperamentPhrase(bottom, top)
  {
    if bottom == 0 {
      TemperamentRowStrong(top);
    } else if bottom == 1 {
      TemperamentRowJoyful(top);
    } else if bottom == 2 {
      TemperamentRowBright(top);
    } else if bottom == 3 {
      TemperamentRowMoving(top);
    } else {
      TemperamentRowYielding(top);
    }
  }

  /** The pair-table row of lower temperament 健. */
  lemma TemperamentRowStrong(top: nat)
    requires top < 5
    ensures Temperaments[0] + Temperaments[top] in TemperamentPairs
    ensures TemperamentPairs[Temperaments[0] + Temperaments[top]] == TemperamentPhrase(0, top)
  {
    TemperamentCellsStrong();
    if top == 0 {
      assert Temperaments[0] + Temperaments[top] == "健健";
    } else if top == 1 {
      assert Temperaments[0] + Temperaments[top] == "健悅";
    } else if top == 2 {
      assert Temperaments[0] + Temperaments[top] == "健麗";
    } else if top == 3 {
      assert Temperaments[0] + Temperaments[top] == "健動";
    } else {
      assert Temperaments[0] + Temperaments[top] == "健入";
    }
  }

  /** The entries of row 健, read off the table. */
  lemma TemperamentCellsStrong()
    ensures "健健" in TemperamentPairs && TemperamentPairs["健健"] == "剛健無比" && TemperamentPhrase(0, 0) == "剛健無比"
    ensures "健悅" in TemperamentPairs && TemperamentPairs["健悅"] == "剛健而愉快" && TemperamentPhrase(0, 1) == "剛健而愉快"
    ensures "健麗" in TemperamentPairs && TemperamentPairs["健麗"] == "剛健而光明" && TemperamentPhrase(0, 2) == "剛健而光明"
    ensures "健動" in TemperamentPairs && TemperamentPairs["健動"] == "剛健而活潑" && TemperamentPhrase(0, 3) == "剛健而活潑"
    ensures "健入" in TemperamentPairs && TemperamentPairs["健入"] == "剛健而柔順" && TemperamentPhrase(0, 4) == "剛健而柔順"
  {
  }

  /** The pair-table row of lower temperament 悅. */
  lemma TemperamentRowJoyful(top: nat)
    requires top < 5
    ensures Temperaments[1] + Temperaments[top] in TemperamentPairs
    ensures TemperamentPairs[Temperaments[1] + Temperaments[top]] == TemperamentPhrase(1, top)
  {
    TemperamentCellsJoyful();
    if top == 0 {
      assert Temperaments[1] + Temperaments[top] == "悅健";
    } else if top == 1 {
      assert Temperaments[1] + Temperaments[top] == "悅悅";
    } else if top == 2 {
      assert Temperaments[1] + Temperaments[top] == "悅麗";
    } else if top == 3 {
      assert Temperaments[1] + Temperaments[top] == "悅動";
    } else {
      assert Temperaments[1] + Temperaments[top] == "悅入";
    }
  }

  /** The entries of row 悅, read off the table. */
  lemma TemperamentCellsJoyful()
    ensures "悅健" in TemperamentPairs && TemperamentPairs["悅健"] == "愉快而剛健" && TemperamentPhrase(1, 0) == "愉快而剛健"
    ensures "悅悅" in TemperamentPairs && TemperamentPairs["悅悅"] == "愉快無比" && TemperamentPhrase(1, 1) == "愉快無比"
    ensures "悅麗" in TemperamentPairs && TemperamentPairs["悅麗"] == "愉快而光明" && TemperamentPhrase(1, 2) == "愉快而光明"
    ensures "悅動" in TemperamentPairs && TemperamentPairs["悅動"] == "愉快而活潑" && TemperamentPhrase(1, 3) == "愉快而活潑"
    ensures "悅入" in TemperamentPairs && TemperamentPairs["悅入"] == "愉快而柔順" && TemperamentPhrase(1, 4) == "愉快而柔順"
  {
  }

  /** The pair-table row of lower temperament 麗. */
  lemma TemperamentRowBright(top: nat)
    requires top < 5
    ensures Temperaments[2] + Temperaments[top] in TemperamentPairs
    ensures TemperamentPairs[Temperaments[2] + Temperaments[top]] == TemperamentPhrase(2, top)
  {
    TemperamentCellsBright();
    if top == 0 {
      assert Temperaments[2] + Temperaments[top] == "麗健";
    } else if top == 1 {
      assert Temperaments[2] + Temperaments[top] == "麗悅";
    } else if top == 2 {
      assert Temperaments[2] + Temperaments[top] == "麗麗";
    } else if top == 3 {
      assert Temperaments[2] + Temperaments[top] == "麗動";
    } else {
      assert Temperaments[2] + Temperaments[top] == "麗入";
    }
  }

  /** The entries of row 麗, read off the table. */
  lemma TemperamentCellsBright()
    ensures "麗健" in TemperamentPairs && TemperamentPairs["麗健"] == "光明而剛健" && TemperamentPhrase(2, 0) == "光明而剛健"
    ensures "麗悅" in TemperamentPairs && TemperamentPairs["麗悅"] == "光明而愉快" && TemperamentPhrase(2, 1) == "光明而愉快"
    ensures "麗麗" in TemperamentPairs && TemperamentPairs["麗麗"] == "光明無比" && TemperamentPhrase(2, 2) == "光明無比"
    ensures "麗動" in TemperamentPairs && TemperamentPairs["麗動"] == "光明而活潑" && TemperamentPhrase(2, 3) == "光明而活潑"
    ensures "麗入" in TemperamentPairs && TemperamentPairs["麗入"] == "光明而柔順" && TemperamentPhrase(2, 4) == "光明而柔順"
  {
  }

  /** The pair-table row of lower temperament 動. */
  lemma TemperamentRowMoving(top: nat)
    requires top < 5
    ensures Temperaments[3] + Temperaments[top] in TemperamentPairs
    ensures TemperamentPairs[Temperaments[3] + Temperaments[top]] == TemperamentPhrase(3, top)
  {
    TemperamentCellsMoving();
    if top == 0 {
      assert Temperaments[3] + Temperaments[top] == "動健";
    } else if top == 1 {
      assert Temperaments[3] + Temperaments[top] == "動悅";
    } else if top == 2 {
      assert Temperaments[3] + Temperaments[top] == "動麗";
    } else if top == 3 {
      assert Temperaments[3] + Temperaments[top] == "動動";
    } else {
      assert Temperaments[3] + Temperaments[top] == "動入";
    }
  }

  /** The entries of row 動, read off the table. */
  lemma TemperamentCellsMoving()
    ensures "動健" in TemperamentPairs && TemperamentPairs["動健"] == "活潑而剛健" && TemperamentPhrase(3, 0) == "活潑而剛健"
    ensures "動悅" in TemperamentPairs && TemperamentPairs["動悅"] == "活潑而愉快" && TemperamentPhrase(3, 1) == "活潑而愉快"
    ensures "動麗" in TemperamentPairs && TemperamentPairs["動麗"] == "活潑而光明" && TemperamentPhrase(3, 2) == "活潑而光明"
    ensures "動動" in TemperamentPairs && TemperamentPairs["動動"] == "活潑無比" && TemperamentPhrase(3, 3) == "活潑無比"
    ensures "動入" in TemperamentPairs && TemperamentPairs["動入"] == "活潑而柔順" && TemperamentPhrase(3, 4) == "活潑而柔順"
  {
  }

  /** The pair-table row of lower temperament 入. */
  lemma TemperamentRowYielding(top: nat)
    requires top < 5
    ensures Temperaments[4] + Temperaments[top] in TemperamentPairs
    ensures TemperamentPairs[Temperaments[4] + Temperaments[top]] == TemperamentPhrase(4, top)
  {
    TemperamentCellsYielding();
    if top == 0 {
      assert Temperaments[4] + Temperaments[top] == "入健";
    } else if top == 1 {
      assert Temperaments[4] + Temperaments[top] == "入悅";
    } else if top == 2 {
      assert Temperaments[4] + Temperaments[top] == "入麗";
    } else if top == 3 {
      assert Temperaments[4] + Temperaments[top] == "入動";
    } else {
      assert Temperaments[4] + Temperaments[top] == "入入";
    }
  }

  /** The entries of row 入, read off the table. */
  lemma TemperamentCellsYielding()
    ensures "入健" in TemperamentPairs && TemperamentPairs["入健"] == "柔順而剛健" && TemperamentPhrase(4, 0) == "柔順而剛健"
    ensures "入悅" in TemperamentPairs && TemperamentPairs["入悅"] == "柔順而愉快" && TemperamentPhrase(4, 1) == "柔順而愉快"
    ensures "入麗" in TemperamentPairs && TemperamentPairs["入麗"] == "柔順而光明" && TemperamentPhrase(4, 2) == "柔順而光明"
    ensures "入動" in TemperamentPairs && TemperamentPairs["入動"] == "柔順而活潑" && TemperamentPhrase(4, 3) == "柔順而活潑"
    ensures "入入" in TemperamentPairs && TemperamentPairs["入入"] == "柔順無比" && TemperamentPhrase(4, 4) == "柔順無比"
  {
  }

  /** Two different known temperaments get their joined words; the doubled (無比)
      entries are never the answer, since equal temperaments are answered first. */
  lemma AnalyzeTemperamentByWords(bottom: nat, top: nat)
    requires bottom < 5 && top < 5 && bottom != top
    ensures AnalyzeTemperament(Temperaments[bottom], Temperaments[top]) ==
            TemperamentWords[bottom] + "而" + TemperamentWords[top]
  {
    TemperamentPairsFollowWords(bottom, top);
  }
}
