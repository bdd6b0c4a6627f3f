/** The interpretation lookups of src/utils/hexagramInterpretation.js: a
    range-checked lookup into the decorated catalog, and this file's own copies
    of the element, family and temperament classifiers. The element and
    temperament tables differ from those of src/utils/plumBlossom.js; the family
    classifier is the same. The decorated catalog, which the source builds once
    when the module is loaded, is a parameter. */
module HexagramInterpretation {
  import opened Common
  import opened Records
  import EnhanceHexagramData
  import HexagramEngine
  import PlumBlossom

  // ---------------------------------------------------------------------------
  // Hexagram lookup
  // ---------------------------------------------------------------------------

  /** The fields getHexagramInterpretation returns. */
  datatype Interpretation = Interpretation(
    number: int, name: string, character: string, binary: string,
    topTrigram: TrigramInfo, bottomTrigram: TrigramInfo,
    combinedAttributes: CombinedAttributes,
    text: string, description: string,
    keyYaoTexts: YaoCombination, allYao: Option<seq<Yao>>)

  /** The two errors getHexagramInterpretation throws. */
  datatype InterpretationError =
    | NumberOutOfRange                   // 卦象編號必須在 1 到 64 之間
    | HexagramNotFound(hexagramNumber: int)  // 找不到編號為 n 的卦象

  /** The interpretation fields of one decorated record. */
  function InterpretationOf(h: EnhancedHexagram): Interpretation
  {
    Interpretation(h.base.number, h.base.name, h.base.character, h.base.binary,
                   h.topTrigramInfo, h.bottomTrigramInfo, h.combinedAttributes,
                   h.base.text, h.base.description, h.yaoCombination, h.base.yao)
  }

  /** getHexagramInterpretation: a number outside 1..64 is refused, a number with
      no record at its position is not found, and otherwise the record at position
      n - 1 is returned with its fields unchanged. */
  function GetHexagramInterpretation(enhancedHexagrams: seq<EnhancedHexagram>, hexagramNumber: int)
    : (r: Result<Interpretation, InterpretationError>)
    ensures r == Err(NumberOutOfRange) <==> hexagramNumber < 1 || hexagramNumber > 64
    ensures r == Err(HexagramNotFound(hexagramNumber)) <==>
              1 <= hexagramNumber <= 64 && hexagramNumber > |enhancedHexagrams|
    ensures r.Ok? ==>
              1 <= hexagramNumber <= |enhancedHexagrams| &&
              var h := enhancedHexagrams[hexagramNumber - 1];
              r.value.number == h.base.number && r.value.name == h.base.name &&
              r.value.character == h.base.character && r.value.binary == h.base.binary &&
              r.value.text == h.base.text && r.value.description == h.base.description &&
              r.value.combinedAttributes == h.combinedAttributes &&
              r.value.topTrigram == h.topTrigramInfo && r.value.bottomTrigram == h.bottomTrigramInfo &&
              r.value.keyYaoTexts == h.yaoCombination && r.value.allYao == h.base.yao
  {
    if hexagramNumber < 1 || hexagramNumber > 64 then Err(NumberOutOfRange)
    else if hexagramNumber - 1 >= |enhancedHexagrams| then Err(HexagramNotFound(hexagramNumber))
    else Ok(InterpretationOf(enhancedHexagrams[hexagramNumber - 1]))
  }

  /** Looked up in a catalog decorated by enhanceHexagramData, hexagram n is the
      n-th record of the dataset with the descriptions of the trigrams it names
      and its own line summaries. */
  lemma InterpretationOfDataset(data: Dataset, hexagramNumber: int)
    requires EnhanceHexagramData.EnhanceHexagramData(data).Some?
    requires 1 <= hexagramNumber <= 64 && hexagramNumber <= |data.hexagrams|
    ensures var r := GetHexagramInterpretation(EnhanceHexagramData.EnhanceHexagramData(data).value.hexagrams, hexagramNumber);
            var h := data.hexagrams[hexagramNumber - 1];
            r.Ok? && r.value.number == h.number && r.value.binary == h.binary && r.value.allYao == h.yao &&
            EnhanceHexagramData.DescribesTrigram(r.value.topTrigram, data.trigrams[h.topTrigram - 1]) &&
            EnhanceHexagramData.DescribesTrigram(r.value.bottomTrigram, data.trigrams[h.bottomTrigram - 1]) &&
            r.value.keyYaoTexts == EnhanceHexagramData.GetYaoCombination(h.yao.value)
  {
    var enhanced := EnhanceHexagramData.EnhanceHexagramData(data).value;
    assert Some(enhanced.hexagrams[hexagramNumber - 1]) ==
           EnhanceHexagramData.EnhanceHexagram(data.hexagrams[hexagramNumber - 1], data.trigrams);
  }

  // ---------------------------------------------------------------------------
  // Element classifier
  // ---------------------------------------------------------------------------

  /** This file's element table as written, keyed by lower element then upper
      element. Five of its phrases name a relation the two elements do not have:
      火木, 火金, 火水, 土火 and 土水. */
  const ElementRelationsAsWritten: map<string, string> := map[
    "木木" := "相生", "木火" := "木生火", "木土" := "木剋土", "木金" := "金剋木", "木水" := "水生木",
    "火木" := "火剋金", "火火" := "相生", "火土" := "火生土", "火金" := "火被水剋", "火水" := "火剋水",
    "土木" := "土被木剋", "土火" := "土剋水", "土土" := "相生", "土金" := "土生金", "土水" := "水剋火",
    "金木" := "金剋木", "金火" := "金被火剋", "金土" := "金被土生", "金金" := "相生", "金水" := "金生水",
    "水木" := "水生木", "水火" := "水剋火", "水土" := "土剋水", "水金" := "水被金生", "水水" := "相生"]

  /** analyzeElements as written. */
  function AnalyzeElementsAsWritten(bottomElement: string, topElement: string): (r: string)
    ensures bottomElement == topElement ==> r == PlumBlossom.SameElementSentence(bottomElement)
    ensures bottomElement != topElement && bottomElement + topElement !in ElementRelationsAsWritten ==>
              r == PlumBlossom.ComplexElements
    ensures bottomElement != topElement && bottomElement + topElement in ElementRelationsAsWritten ==>
              r == ElementRelationsAsWritten[bottomElement + topElement]
  {
    if bottomElement == topElement then PlumBlossom.SameElementSentence(bottomElement)
    else PlumBlossom.LookupOr(ElementRelationsAsWritten, bottomElement + topElement, PlumBlossom.ComplexElements)
  }

  /** The element table with the five misstated phrases replaced by the relation
      the generating and overcoming cycles give (the phrases of src/utils/plumBlossom.js). */
  const ElementRelations: map<string, string> := map[
    "木木" := "相生", "木火" := "木生火", "木土" := "木剋土", "木金" := "金剋木", "木水" := "水生木",
    "火木" := "火被木生", "火火" := "相生", "火土" := "火生土", "火金" := "火剋金", "火水" := "火被水剋",
    "土木" := "土被木剋", "土火" := "土被火生", "土土" := "相生", "土金" := "土生金", "土水" := "土剋水",
    "金木" := "金剋木", "金火" := "金被火剋", "金土" := "金被土生", "金金" := "相生", "金水" := "金生水",
    "水木" := "水生木", "水火" := "水剋火", "水土" := "土剋水", "水金" := "水被金生", "水水" := "相生"]

  /** analyzeElements with the corrected table. */
  function AnalyzeElements(bottomElement: string, topElement: string): (r: string)
    ensures bottomElement == topElement ==> r == PlumBlossom.SameElementSentence(bottomElement)
    ensures bottomElement != topElement && bottomElement + topElement !in ElementRelations ==>
              r == PlumBlossom.ComplexElements
    ensures bottomElement != topElement && bottomElement + topElement in ElementRelations ==>
              r == ElementRelations[bottomElement + topElement]
  {
    if bottomElement == topElement then PlumBlossom.SameElementSentence(bottomElement)
    else PlumBlossom.LookupOr(ElementRelations, bottomElement + topElement, PlumBlossom.ComplexElements)
  }

  /** The relation of two different elements said with the acting element first:
      "X生Y" when X generates Y, "X剋Y" when X overcomes Y. */
  function ActivePhrase(bottom: nat, top: nat): string
    requires bottom < 5 && top < 5
  {
    var b, t := HexagramEngine.Cycle[bottom], HexagramEngine.Cycle[top];
    match (top - bottom) % 5
    case 0 => "相生"
    case 1 => b + "生" + t
    case 2 => b + "剋" + t
    case 3 => t + "剋" + b
    case _ => t + "生" + b
  }

  /** A phrase states the relation between the lower and the upper element truly:
      from the lower element's side, or with the acting element first. */
  predicate TruePhrase(bottom: nat, top: nat, phrase: string)
    requires bottom < 5 && top < 5
  {
    phrase == PlumBlossom.ElementPhrase(bottom, top) || phrase == ActivePhrase(bottom, top)
  }

  /** The five misstated phrases of the table as written: 火 over 木 is answered
      火剋金 (a relation with 金), and so on. */
  lemma ElementTableAsWrittenAnswers()
    ensures AnalyzeElementsAsWritten("火", "木") == "火剋金"
    ensures AnalyzeElementsAsWritten("火", "金") == "火被水剋"
    ensures AnalyzeElementsAsWritten("火", "水") == "火剋水"
    ensures AnalyzeElementsAsWritten("土", "火") == "土剋水"
    ensures AnalyzeElementsAsWritten("土", "水") == "水剋火"
  {
    assert "火" + "木" == "火木";
    assert "火" + "金" == "火金";
    assert "火" + "水" == "火水";
    assert "土" + "火" == "土火";
    assert "土" + "水" == "土水";
  }

  /** None of those five answers is a true phrase for its pair (火 is 3, 土 is 4,
      金 is 0, 水 is 1 and 木 is 2 on the generating cycle). */
  lemma ElementTableAsWrittenMisstates()
    ensures !TruePhrase(3, 2, "火剋金") && !TruePhrase(3, 0, "火被水剋") && !TruePhrase(3, 1, "火剋水")
    ensures !TruePhrase(4, 3, "土剋水") && !TruePhrase(4, 1, "水剋火")
  {
    assert PlumBlossom.ElementPhrase(3, 2) == "火被木生" && ActivePhrase(3, 2) == "木生火";
    assert PlumBlossom.ElementPhrase(3, 0) == "火剋金" && ActivePhrase(3, 0) == "火剋金";
    assert PlumBlossom.ElementPhrase(3, 1) == "火被水剋" && ActivePhrase(3, 1) == "水剋火";
    assert PlumBlossom.ElementPhrase(4, 3) == "土被火生" && ActivePhrase(4, 3) == "火生土";
    assert PlumBlossom.ElementPhrase(4, 1) == "土剋水" && ActivePhrase(4, 1) == "土剋水";
  }

  /** Apart from three keys phrased with the acting element first, the corrected
      table has the keys and the phrases of the table in src/utils/plumBlossom.js. */
  lemma CorrectedTableKeys(key: string)
    ensures key in ElementRelations <==> key in PlumBlossom.ElementRelations
  {
  }

  /** Row 金 of the corrected table. */
  lemma CorrectedRowMetal(key: string)
    requires key in ElementRelations && key in PlumBlossom.ElementRelations && key[0] == '金'
    ensures ElementRelations[key] == PlumBlossom.ElementRelations[key]
  {
  }

  /** Row 水 of the corrected table outside 水土. */
  lemma CorrectedRowWater(key: string)
    requires key in ElementRelations && key in PlumBlossom.ElementRelations && key[0] == '水'
    requires key != "水土"
    ensures ElementRelations[key] == PlumBlossom.ElementRelations[key]
  {
  }

  /** Row 木 of the corrected table outside 木金 and 木水. */
  lemma CorrectedRowWood(key: string)
    requires key in ElementRelations && key in PlumBlossom.ElementRelations && key[0] == '木'
    requires key != "木金"
    requires key != "木水"
    ensures ElementRelations[key] == PlumBlossom.ElementRelations[key]
  {
  }

  /** Row 火 of the corrected table. */
  lemma CorrectedRowFire(key: string)
    requires key in ElementRelations && key in PlumBlossom.ElementRelations && key[0] == '火'
    ensures ElementRelations[key] == PlumBlossom.ElementRelations[key]
  {
  }

  /** Row 土 of the corrected table. */
  lemma CorrectedRowEarth(key: string)
    requires key in ElementRelations && key in PlumBlossom.ElementRelations && key[0] == '土'
    ensures ElementRelations[key] == PlumBlossom.ElementRelations[key]
  {
  }

  /** With the corrected table, two different elements always get a true phrase. */
  lemma AnalyzeElementsStatesTrueRelations(bottom: nat, top: nat)
    requires bottom < 5 && top < 5 && bottom != top
    ensures TruePhrase(bottom, top, AnalyzeElements(HexagramEngine.Cycle[bottom], HexagramEngine.Cycle[top]))
  {
    if (bottom, top) == (2, 0) || (bottom, top) == (2, 1) || (bottom, top) == (1, 4) {
      ActiveVoiceEntries(bottom, top);
    } else {
      SharedEntries(bottom, top);
    }
  }

  /** The three entries phrased in the active voice: 木金, 木水 and 水土. */
  lemma ActiveVoiceEntries(bottom: nat, top: nat)
    requires (bottom, top) == (2, 0) || (bottom, top) == (2, 1) || (bottom, top) == (1, 4)
    ensures AnalyzeElements(HexagramEngine.Cycle[bottom], HexagramEngine.Cycle[top]) == ActivePhrase(bottom, top)
  {
    var key := HexagramEngine.Cycle[bottom] + HexagramEngine.Cycle[top];
    if (bottom, top) == (2, 0) {
      assert key == "木金";
    } else if (bottom, top) == (2, 1) {
      assert key == "木水";
    } else {
      assert key == "水土";
    }
  }

  /** Every other entry of the corrected table is the one the decorator's table holds. */
  lemma SharedEntries(bottom: nat, top: nat)
    requires bottom < 5 && top < 5 && bottom != top
    requires (bottom, top) != (2, 0) && (bottom, top) != (2, 1) && (bottom, top) != (1, 4)
    ensures AnalyzeElements(HexagramEngine.Cycle[bottom], HexagramEngine.Cycle[top]) == PlumBlossom.ElementPhrase(bottom, top)
  {
    var cycle := HexagramEngine.Cycle;
    var key := cycle[bottom] + cycle[top];
    assert key[0] == cycle[bottom][0];
    assert key != "木金" && key != "木水" && key != "水土" by {
      assert key[1] == cycle[top][0];
    }
    CorrectedTableKeys(key);
    PlumBlossom.ElementRelationsFollowCycles(bottom, top);
    if bottom == 0 {
      CorrectedRowMetal(key);
    } else if bottom == 1 {
      CorrectedRowWater(key);
    } else if bottom == 2 {
      CorrectedRowWood(key);
    } else if bottom == 3 {
      CorrectedRowFire(key);
    } else {
      CorrectedRowEarth(key);
    }
    PlumBlossom.AnalyzeElementsFollowsCycles(bottom, top);
  }

  // ---------------------------------------------------------------------------
  // Family classifier
  // ---------------------------------------------------------------------------

  /** This file's family table, keyed by lower term then upper term. */
  const FamilyRelations: map<string, string> := map[
    "父父" := "強勢而剛健", "父母" := "剛強而柔順", "父兄" := "權威和教導", "父弟" := "引導與保護", "父子" := "教導與培養",
    "母父" := "柔順與堅定", "母母" := "柔順而和諧", "母兄" := "關愛與指導", "母弟" := "照顧與呵護", "母子" := "養育與關懷",
    "兄父" := "尊敬與學習", "兄母" := "依賴與照顧", "兄兄" := "競爭與合作", "兄弟" := "互助與共進", "兄子" := "引領與影響",
    "弟父" := "順從與依靠", "弟母" := "親近與依賴", "弟兄" := "學習與追隨", "弟弟" := "和諧與協作", "弟子" := "成長與發展",
    "子父" := "尊重與承傳", "子母" := "依附與滋養", "子兄" := "學習與仰望", "子弟" := "友愛與同行", "子子" := "延續與希望"]

  /** This file's simplifyFamily: 父, then 母 or 女, then 長男, then 中男 or 少男, then
      子; a family with none of the keywords is kept as it is. */
  function SimplifyFamily(family: string): (r: string)
    ensures Contains(family, "父") ==> r == "父"
    ensures !Contains(family, "父") && (Contains(family, "母") || Contains(family, "女")) ==> r == "母"
    ensures (!Contains(family, "父") && !Contains(family, "母") && !Contains(family, "女") &&
             Contains(family, "長男")) ==> r == "兄"
    ensures (!Contains(family, "父") && !Contains(family, "母") && !Contains(family, "女") && !Contains(family, "長男") &&
             (Contains(family, "中男") || Contains(family, "少男"))) ==> r == "弟"
    ensures (!Contains(family, "父") && !Contains(family, "母") && !Contains(family, "女") && !Contains(family, "長男") &&
             !Contains(family, "中男") && !Contains(family, "少男") && Contains(family, "子")) ==> r == "子"
    ensures PlumBlossom.HasKinshipKeyword(family) ==> r in PlumBlossom.ShortTerms
    ensures !PlumBlossom.HasKinshipKeyword(family) ==> r == family
  {
    if Contains(family, "父") then "父"
    else if Contains(family, "母") || Contains(family, "女") then "母"
    else if Contains(family, "長男") then "兄"
    else if Contains(family, "中男") || Contains(family, "少男") then "弟"
    else if Contains(family, "子") then "子"
    else family
  }

  /** analyzeFamilyRelation: the table's phrase for the two simplified terms, or the fallback. */
  function AnalyzeFamilyRelation(bottomFamily: string, topFamily: string): (r: string)
    ensures SimplifyFamily(bottomFamily) + SimplifyFamily(topFamily) !in FamilyRelations ==>
              r == PlumBlossom.ComplexFamily
    ensures SimplifyFamily(bottomFamily) + SimplifyFamily(topFamily) in FamilyRelations ==>
              r == FamilyRelations[SimplifyFamily(bottomFamily) + SimplifyFamily(topFamily)]
  {
    PlumBlossom.LookupOr(FamilyRelations, SimplifyFamily(bottomFamily) + SimplifyFamily(topFamily), PlumBlossom.ComplexFamily)
  }

  /** The two copies of the family classifier give the same answer on every input. */
  lemma FamilyCopiesAgree(bottomFamily: string, topFamily: string)
    ensures SimplifyFamily(bottomFamily) == PlumBlossom.SimplifyFamily(bottomFamily)
    ensures AnalyzeFamilyRelation(bottomFamily, topFamily) == PlumBlossom.AnalyzeFamilyRelation(bottomFamily, topFamily)
  {
    assert FamilyRelations == PlumBlossom.FamilyRelations;
  }

  // ---------------------------------------------------------------------------
  // Temperament classifier
  // ---------------------------------------------------------------------------

  /** This file's temperament pairs: the twenty pairs of different temperaments. */
  const TemperamentPairs: map<string, string> := map[
    "健悅" := "剛健而愉快", "健麗" := "剛健而光明", "健動" := "剛健而活潑", "健入" := "剛健而柔順",
    "悅健" := "愉快而剛健", "悅麗" := "愉快而光明", "悅動" := "愉快而活潑", "悅入" := "愉快而柔順",
    "麗健" := "光明而剛健", "麗悅" := "光明而愉快", "麗動" := "光明而活潑", "麗入" := "光明而柔順",
    "動健" := "活潑而剛健", "動悅" := "活潑而愉快", "動麗" := "活潑而光明", "動入" := "活潑而柔順",
    "入健" := "柔順而剛健", "入悅" := "柔順而愉快", "入麗" := "柔順而光明", "入動" := "柔順而活潑"]

  /** analyzeTemperament: the resonance sentence for equal temperaments, otherwise
      the pair's phrase, or the fallback. */
  function AnalyzeTemperament(bottomTemperament: string, topTemperament: string): (r: string)
    ensures bottomTemperament == topTemperament ==> r == PlumBlossom.SameTemperamentSentence(bottomTemperament)
    ensures bottomTemperament != topTemperament && bottomTemperament + topTemperament !in TemperamentPairs ==>
              r == PlumBlossom.ComplexTemperament
    ensures bottomTemperament != topTemperament && bottomTemperament + topTemperament in TemperamentPairs ==>
              r == TemperamentPairs[bottomTemperament + topTemperament]
  {
    if bottomTemperament == topTemperament then PlumBlossom.SameTemperamentSentence(bottomTemperament)
    else PlumBlossom.LookupOr(TemperamentPairs, bottomTemperament + topTemperament, PlumBlossom.ComplexTemperament)
  }

  /** On one-character temperaments this copy answers as the one in
      src/utils/plumBlossom.js: the five doubled pairs only that copy lists are
      never reached, since equal temperaments are answered first. */
  lemma TemperamentCopiesAgree(bottomTemperament: string, topTemperament: string)
    requires |bottomTemperament| == 1 && |topTemperament| == 1
    ensures AnalyzeTemperament(bottomTemperament, topTemperament) ==
            PlumBlossom.AnalyzeTemperament(bottomTemperament, topTemperament)
  {
    if bottomTemperament != topTemperament {
      var key := bottomTemperament + topTemperament;
      assert key[0] != key[1] by {
        assert bottomTemperament == [key[0]] && topTemperament == [key[1]];
      }
    }
  }
}
