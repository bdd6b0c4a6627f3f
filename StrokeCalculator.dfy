/** Text casting by stroke counts (js/stroke-calculator.js): each character's
    Kangxi stroke count comes from an exception table, the non-blank characters
    are counted and their strokes summed, and the text is split into an upper
    and a lower part whose stroke sums give the two trigram numbers.

    A JavaScript string is modelled as a sequence of code points, so iterating
    it and indexing it agree (no surrogate pairs). */
module StrokeCalculation {
  import opened Common

  /** What `String.prototype.trim` removes: the ECMAScript white space and line
      terminator code points. A character is blank when its `trim()` is empty. */
  predicate IsJsWhitespace(c: char) {
    c == '\t' || c == '\n' || c == '\U{B}' || c == '\U{C}' || c == '\r' || c == ' ' ||
    c == '\U{A0}' || c == '\U{1680}' || ('\U{2000}' <= c <= '\U{200A}') ||
    c == '\U{2028}' || c == '\U{2029}' || c == '\U{202F}' || c == '\U{205F}' ||
    c == '\U{3000}' || c == '\U{FEFF}'
  }

  /** getStrokeCount: 0 for the empty string, the exception entry when it is
      truthy (present and non-zero), otherwise estimateStroke's 0. */
  function StrokeCount(exceptions: map<string, int>, ch: string): (r: int)
    ensures ch != [] && ch in exceptions && exceptions[ch] != 0 ==> r == exceptions[ch]
    ensures ch == [] || ch !in exceptions || exceptions[ch] == 0 ==> r == 0
  {
    if ch == [] then 0
    else if ch in exceptions && exceptions[ch] != 0 then exceptions[ch]
    else EstimateStroke(ch)
  }

  /** estimateStroke: no stroke data outside the table; the warning it logs is not modelled. */
  function EstimateStroke(ch: string): int
  {
    0
  }

  /** What a counted character adds to the total: its strokes, or 1 when they are unknown (0). */
  function Weight(exceptions: map<string, int>, c: char): int
  {
    var strokes := StrokeCount(exceptions, [c]);
    if strokes == 0 then 1 else strokes
  }

  /** The number of non-blank characters. */
  function CharCount(text: string): nat
  {
    if |text| == 0 then 0
    else CharCount(text[..|text| - 1]) + (if IsJsWhitespace(text[|text| - 1]) then 0 else 1)
  }

  /** The weighted stroke sum over the non-blank characters. */
  function TotalStrokes(exceptions: map<string, int>, text: string): int
  {
    if |text| == 0 then 0
    else TotalStrokes(exceptions, text[..|text| - 1]) +
         (if IsJsWhitespace(text[|text| - 1]) then 0 else Weight(exceptions, text[|text| - 1]))
  }

  /** The plain stroke sum over every character, blank ones included. */
  function RawStrokes(exceptions: map<string, int>, text: string): int
  {
    if |text| == 0 then 0
    else RawStrokes(exceptions, text[..|text| - 1]) + StrokeCount(exceptions, [text[|text| - 1]])
  }

  /** The three numbers calculateTextHexagram returns. */
  datatype TextCastResult = TextCastResult(upperNum: int, lowerNum: int, totalNum: int)

  /** Where the text is split when it has neither one nor two counted characters. */
  function SplitIndex(text: string): nat
  {
    CharCount(text) / 2
  }

  /** What calculateTextHexagram computes: totalNum is the weighted total plus the
      hour, whatever the split; one counted character gives the upper number its
      weighted strokes and the lower number the hour on top, so the lower number
      equals totalNum; two counted characters are read at raw positions 0 and 1;
      more are split at half the count, rounded down, so the upper part takes the
      first k raw characters and the lower part all the rest. */
  function TextCast(exceptions: map<string, int>, text: string, hour: int): (r: TextCastResult)
    ensures r.totalNum == TotalStrokes(exceptions, text) + hour
    ensures CharCount(text) == 1 ==> r.lowerNum == r.upperNum + hour && r.lowerNum == r.totalNum
    ensures CharCount(text) == 2 ==>
              |text| >= 2 && r.upperNum == StrokeCount(exceptions, [text[0]]) &&
              r.lowerNum == StrokeCount(exceptions, [text[1]])
    ensures CharCount(text) >= 3 ==>
              var k := CharCount(text) / 2;
              k <= |text| && r.upperNum == RawStrokes(exceptions, text[..k]) &&
              r.lowerNum == RawStrokes(exceptions, text[k..])
  {
    var count := CharCount(text);
    var total := TotalStrokes(exceptions, text);
    if count == 1 then TextCastResult(total, total + hour, total + hour)
    else if count == 2 then
      CountBounded(text);
      TextCastResult(StrokeCount(exceptions, [text[0]]), StrokeCount(exceptions, [text[1]]), total + hour)
    else
      CountBounded(text);
      var split := SplitIndex(text);
      TextCastResult(RawStrokes(exceptions, text[..split]), RawStrokes(exceptions, text[split..]), total + hour)
  }

  // ---------------------------------------------------------------------------
  // Properties of the sums
  // ---------------------------------------------------------------------------

  /** No more counted characters than characters. */
  lemma {:induction false} CountBounded(text: string)
    ensures CharCount(text) <= |text|
  {
    if |text| > 0 {
      CountBounded(text[..|text| - 1]);
    }
  }

  lemma {:induction false} CharCountAppend(a: string, b: string)
    ensures CharCount(a + b) == CharCount(a) + CharCount(b)
    decreases |b|
  {
    if |b| == 0 {
      assert a + b == a;
    } else {
      assert (a + b)[..|a + b| - 1] == a + b[..|b| - 1];
      CharCountAppend(a, b[..|b| - 1]);
    }
  }

  lemma {:induction false} TotalStrokesAppend(exceptions: map<string, int>, a: string, b: string)
    ensures TotalStrokes(exceptions, a + b) == TotalStrokes(exceptions, a) + TotalStrokes(exceptions, b)
    decreases |b|
  {
    if |b| == 0 {
      assert a + b == a;
    } else {
      assert (a + b)[..|a + b| - 1] == a + b[..|b| - 1];
      TotalStrokesAppend(exceptions, a, b[..|b| - 1]);
    }
  }

  lemma {:induction false} RawStrokesAppend(exceptions: map<string, int>, a: string, b: string)
    ensures RawStrokes(exceptions, a + b) == RawStrokes(exceptions, a) + RawStrokes(exceptions, b)
    decreases |b|
  {
    if |b| == 0 {
      assert a + b == a;
    } else {
      assert (a + b)[..|a + b| - 1] == a + b[..|b| - 1];
      RawStrokesAppend(exceptions, a, b[..|b| - 1]);
    }
  }

  /** A blank character inserted anywhere changes neither the count nor the total. */
  lemma BlankIgnored(exceptions: map<string, int>, a: string, b: string, w: char)
    requires IsJsWhitespace(w)
    ensures CharCount(a + [w] + b) == CharCount(a + b)
    ensures TotalStrokes(exceptions, a + [w] + b) == TotalStrokes(exceptions, a + b)
  {
    CharCountAppend(a + [w], b);
    CharCountAppend(a, [w]);
    CharCountAppend(a, b);
    TotalStrokesAppend(exceptions, a + [w], b);
    TotalStrokesAppend(exceptions, a, [w]);
    TotalStrokesAppend(exceptions, a, b);
    assert [w][..0] == [];
  }

  /** Every table value is a non-negative stroke count. */
  predicate NonNegativeTable(exceptions: map<string, int>) {
    forall k :: k in exceptions ==> exceptions[k] >= 0
  }

  /** Each counted character adds at least 1, so the total is at least the count. */
  lemma {:induction false} TotalAtLeastCount(exceptions: map<string, int>, text: string)
    requires NonNegativeTable(exceptions)
    ensures TotalStrokes(exceptions, text) >= CharCount(text)
  {
    if |text| > 0 {
      TotalAtLeastCount(exceptions, text[..|text| - 1]);
    }
  }

  /** With a non-negative table the plain sum is non-negative. */
  lemma {:induction false} RawStrokesNonNegative(exceptions: map<string, int>, text: string)
    requires NonNegativeTable(exceptions)
    ensures RawStrokes(exceptions, text) >= 0
  {
    if |text| > 0 {
      RawStrokesNonNegative(exceptions, text[..|text| - 1]);
    }
  }

  // ---------------------------------------------------------------------------
  // Properties of the casting
  // ---------------------------------------------------------------------------

  /** Three or more counted characters (or none): the two parts partition the raw
      text, the raw prefix that makes the upper number is the shorter and holds no
      more counted characters than the rest that makes the lower number, and
      together they carry every raw stroke. */
  lemma SplitCoversText(exceptions: map<string, int>, text: string, hour: int)
    requires CharCount(text) != 1 && CharCount(text) != 2
    ensures SplitIndex(text) <= |text| - SplitIndex(text)
    ensures CharCount(text[..SplitIndex(text)]) <= CharCount(text[SplitIndex(text)..])
    ensures var r := TextCast(exceptions, text, hour);
            r.upperNum + r.lowerNum == RawStrokes(exceptions, text)
  {
    CountBounded(text);
    var split := SplitIndex(text);
    assert text[..split] + text[split..] == text;
    RawStrokesAppend(exceptions, text[..split], text[split..]);
    CharCountAppend(text[..split], text[split..]);
    CountBounded(text[..split]);
  }

  /** An example of the two-character rule of TextCast: the parts are read by raw
      position, so a leading blank becomes the upper part and the second counted
      character is dropped. */
  lemma TwoCharactersByPosition(exceptions: map<string, int>, w: char, a: char, b: char, hour: int)
    requires IsJsWhitespace(w) && !IsJsWhitespace(a) && !IsJsWhitespace(b)
    ensures var r := TextCast(exceptions, [w, a, b], hour);
            r.upperNum == StrokeCount(exceptions, [w]) && r.lowerNum == StrokeCount(exceptions, [a])
  {
    assert [w, a, b][..2] == [w, a];
    assert [w, a][..1] == [w];
    assert [w][..0] == [];
    assert CharCount([w]) == 0;
    assert CharCount([w, a]) == 1;
    assert CharCount([w, a, b]) == 2;
  }

  /** Text without blanks whose every character has a known stroke count: every
      character is counted, and the plain sum equals the weighted total. */
  lemma {:induction false} RawIsTotalOnPositiveText(exceptions: map<string, int>, text: string)
    requires forall i :: 0 <= i < |text| ==> !IsJsWhitespace(text[i]) && StrokeCount(exceptions, [text[i]]) > 0
    ensures CharCount(text) == |text| && RawStrokes(exceptions, text) == TotalStrokes(exceptions, text)
  {
    if |text| > 0 {
      RawIsTotalOnPositiveText(exceptions, text[..|text| - 1]);
    }
  }

  /** On such a text of two characters each part is one character's strokes, and
      the two add up to totalNum less the hour. */
  lemma TwoCharactersOnPositiveText(exceptions: map<string, int>, text: string, hour: int)
    requires |text| == 2
    requires forall i :: 0 <= i < |text| ==> !IsJsWhitespace(text[i]) && StrokeCount(exceptions, [text[i]]) > 0
    ensures var r := TextCast(exceptions, text, hour);
            r.upperNum == StrokeCount(exceptions, [text[0]]) && r.lowerNum == StrokeCount(exceptions, [text[1]]) &&
            r.upperNum + r.lowerNum + hour == r.totalNum
  {
    RawIsTotalOnPositiveText(exceptions, text);
    assert text[..1][..0] == [];
    assert RawStrokes(exceptions, text[..1]) == StrokeCount(exceptions, [text[0]]);
    assert RawStrokes(exceptions, text) == StrokeCount(exceptions, [text[0]]) + StrokeCount(exceptions, [text[1]]);
  }

  /** On such a text of three or more characters the upper number is the strokes
      of the first half, rounded down, and the lower number those of the rest, so
      the upper part never has more characters than the lower; the two parts add up
      to totalNum less the hour. */
  lemma PartsMakeTotalOnPositiveText(exceptions: map<string, int>, text: string, hour: int)
    requires |text| >= 3
    requires forall i :: 0 <= i < |text| ==> !IsJsWhitespace(text[i]) && StrokeCount(exceptions, [text[i]]) > 0
    ensures SplitIndex(text) <= |text| - SplitIndex(text)
    ensures var r := TextCast(exceptions, text, hour);
            r.upperNum == TotalStrokes(exceptions, text[..|text| / 2]) &&
            r.lowerNum == TotalStrokes(exceptions, text[|text| / 2..])
    ensures var r := TextCast(exceptions, text, hour);
            r.upperNum + r.lowerNum + hour == r.totalNum
  {
    RawIsTotalOnPositiveText(exceptions, text);
    var upper, lower := text[..|text| / 2], text[|text| / 2..];
    assert forall i :: 0 <= i < |upper| ==> upper[i] == text[i];
    assert forall i :: 0 <= i < |lower| ==> lower[i] == text[|text| / 2 + i];
    RawIsTotalOnPositiveText(exceptions, upper);
    RawIsTotalOnPositiveText(exceptions, lower);
    SplitCoversText(exceptions, text, hour);
  }

  /** Three such characters: the first makes the upper number and the last two the
      lower number. */
  lemma ThreeCharactersOnPositiveText(exceptions: map<string, int>, text: string, hour: int)
    requires |text| == 3
    requires forall i :: 0 <= i < |text| ==> !IsJsWhitespace(text[i]) && StrokeCount(exceptions, [text[i]]) > 0
    ensures var r := TextCast(exceptions, text, hour);
            r.upperNum == StrokeCount(exceptions, [text[0]]) &&
            r.lowerNum == StrokeCount(exceptions, [text[1]]) + StrokeCount(exceptions, [text[2]])
  {
    RawIsTotalOnPositiveText(exceptions, text);
    assert text[..1][..0] == [];
    var lower := text[1..];
    assert lower[..1] == [text[1]] && lower[..1][..0] == [];
    assert lower[..|lower| - 1] == lower[..1];
    assert RawStrokes(exceptions, text[..1]) == StrokeCount(exceptions, [text[0]]);
    assert RawStrokes(exceptions, lower) == StrokeCount(exceptions, [text[1]]) + StrokeCount(exceptions, [text[2]]);
  }

  /** With a non-negative table and hour every output is non-negative. */
  lemma OutputsNonNegative(exceptions: map<string, int>, text: string, hour: int)
    requires NonNegativeTable(exceptions) && hour >= 0
    ensures var r := TextCast(exceptions, text, hour);
            r.upperNum >= 0 && r.lowerNum >= 0 && r.totalNum >= 0
  {
    TotalAtLeastCount(exceptions, text);
    CountBounded(text);
    var split := SplitIndex(text);
    RawStrokesNonNegative(exceptions, text[..split]);
    RawStrokesNonNegative(exceptions, text[split..]);
  }

  // ---------------------------------------------------------------------------
  // The calculator
  // ---------------------------------------------------------------------------

  class StrokeCalculator {
    /** The Kangxi stroke table: character to stroke count. Callers replace it
        after construction once the table is loaded. */
    var exceptions: map<string, int>
    /** Radical stroke corrections; set up but never consulted. */
    const radicalCorrections: map<string, int>

    /** A missing table (null or undefined) becomes the empty table. */
    constructor(kangxiMap: Option<map<string, int>>)
      ensures exceptions == (if kangxiMap.Some? then kangxiMap.value else map[])
      ensures radicalCorrections == map["氵" := 4, "扌" := 4, "忄" := 4, "艹" := 6, "辶" := 7, "阝" := 8]
    {
      exceptions := if kangxiMap.Some? then kangxiMap.value else map[];
      radicalCorrections := map["氵" := 4, "扌" := 4, "忄" := 4, "艹" := 6, "辶" := 7, "阝" := 8];
    }

    /** Assigning the `exceptions` field: the new table replaces the old one. */
    method SetExceptions(table: map<string, int>)
      modifies this
      ensures exceptions == table
    {
      exceptions := table;
    }

    /** calculateTextHexagram */
    method CalculateTextHexagram(text: string, hour: int) returns (r: TextCastResult)
      ensures r == TextCast(exceptions, text, hour)
    {
      var totalStrokes := 0;
      var charCount := 0;
      for i := 0 to |text|
        invariant charCount == CharCount(text[..i])
        invariant totalStrokes == TotalStrokes(exceptions, text[..i])
      {
        assert text[..i + 1][..i] == text[..i];
        var ch := text[i];
        if IsJsWhitespace(ch) {
          continue;
        }
        var strokes := StrokeCount(exceptions, [ch]);
        if strokes == 0 {
          totalStrokes := totalStrokes + 1;
        } else {
          totalStrokes := totalStrokes + strokes;
        }
        charCount := charCount + 1;
      }
      assert text[..|text|] == text;

      var upperStrokes := 0;
      var lowerStrokes := 0;
      CountBounded(text);
      if charCount == 1 {
        upperStrokes := totalStrokes;
        lowerStrokes := totalStrokes + hour;
      } else if charCount == 2 {
        upperStrokes := StrokeCount(exceptions, [text[0]]);
        lowerStrokes := StrokeCount(exceptions, [text[1]]);
      } else {
        var splitIndex := charCount / 2;
        var upperText := text[..splitIndex];
        var lowerText := text[splitIndex..];
        for j := 0 to |upperText|
          invariant upperStrokes == RawStrokes(exceptions, upperText[..j])
        {
          assert upperText[..j + 1][..j] == upperText[..j];
          upperStrokes := upperStrokes + StrokeCount(exceptions, [upperText[j]]);
        }
        assert upperText[..|upperText|] == upperText;
        for j := 0 to |lowerText|
          invariant lowerStrokes == RawStrokes(exceptions, lowerText[..j])
        {
          assert lowerText[..j + 1][..j] == lowerText[..j];
          lowerStrokes := lowerStrokes + StrokeCount(exceptions, [lowerText[j]]);
        }
        assert lowerText[..|lowerText|] == lowerText;
      }
      r := TextCastResult(upperStrokes, lowerStrokes, totalStrokes + hour);
    }
  }
}
