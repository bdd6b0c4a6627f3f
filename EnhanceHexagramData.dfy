/** The dataset decorator of src/utils/enhanceHexagramData.js: every hexagram of
    the catalog is copied with its upper and lower trigrams' descriptions, the
    bottom-then-top combination of three of their fields, and the summaries of
    its line texts. The decorator reads `trigrams[n - 1]` and `yao[k]` without
    checking them, so a record it cannot decorate makes the whole call throw;
    that outcome is None here. */
module EnhanceHexagramData {
  import opened Common
  import opened Records

  /** The enhanced dataset: the trigram table as it was and the decorated catalog. */
  datatype EnhancedDataset = EnhancedDataset(trigrams: seq<Trigram>, hexagrams: seq<EnhancedHexagram>)

  /** The seven descriptive fields this decorator copies; `animal` and `body` stay unset. */
  function BriefInfo(t: Trigram): TrigramInfo
  {
    TrigramInfo(t.name, t.character, t.nature, t.element, t.family, t.position, t.temperament, None, None)
  }

  /** `info` carries the seven descriptive fields of trigram `t`. */
  predicate DescribesTrigram(info: TrigramInfo, t: Trigram)
  {
    info.name == t.name && info.character == t.character && info.nature == t.nature &&
    info.element == t.element && info.family == t.family && info.position == t.position &&
    info.temperament == t.temperament
  }

  /** Nature, family and element of the lower trigram followed by those of the upper. */
  function Combine(bottom: Trigram, top: Trigram): CombinedAttributes
  {
    CombinedAttributes(bottom.nature + top.nature, bottom.family + top.family, bottom.element + top.element)
  }

  /** The commentary text of a line, or [] when it has no commentary. */
  function DescriptionText(y: Yao): seq<string>
  {
    match y.description
    case Some(d) => d.text
    case None => []
  }

  /** The summary of line index k, or None when the list has no line k. */
  function YaoEntry(yao: seq<Yao>, k: nat): Option<YaoSummary>
  {
    if k < |yao| then Some(YaoSummary(yao[k].text, DescriptionText(yao[k]))) else None
  }

  /** getYaoCombination: entry k (initial … sixth, then the 用 line) is absent
      exactly when the list has no line k, and otherwise summarises line k. */
  function GetYaoCombination(yao: seq<Yao>): (c: YaoCombination)
    ensures forall k: nat :: k < 7 ==> (c.Entry(k).None? <==> k >= |yao|)
    ensures forall k: nat :: k < 7 && k < |yao| ==>
              c.Entry(k).value.text == yao[k].text && c.Entry(k).value.description == DescriptionText(yao[k])
  {
    YaoCombination(YaoEntry(yao, 0), YaoEntry(yao, 1), YaoEntry(yao, 2), YaoEntry(yao, 3),
                   YaoEntry(yao, 4), YaoEntry(yao, 5), YaoEntry(yao, 6))
  }

  /** A record can be decorated when both trigram numbers index the table and it has line texts. */
  predicate Decoratable(h: Hexagram, trigrams: seq<Trigram>)
  {
    1 <= h.topTrigram <= |trigrams| && 1 <= h.bottomTrigram <= |trigrams| && h.yao.Some?
  }

  /** The callback of `hexagrams.map`: the record kept whole, the two trigrams'
      descriptions, their combination and the line summaries. */
  function EnhanceHexagram(h: Hexagram, trigrams: seq<Trigram>): (r: Option<EnhancedHexagram>)
    ensures r.Some? <==> Decoratable(h, trigrams)
    ensures r.Some? ==>
              var top, bottom := trigrams[h.topTrigram - 1], trigrams[h.bottomTrigram - 1];
              r.value.base == h &&
              DescribesTrigram(r.value.topTrigramInfo, top) &&
              DescribesTrigram(r.value.bottomTrigramInfo, bottom) &&
              r.value.topTrigramInfo.animal.None? && r.value.topTrigramInfo.body.None? &&
              r.value.bottomTrigramInfo.animal.None? && r.value.bottomTrigramInfo.body.None? &&
              r.value.combinedAttributes.nature == r.value.bottomTrigramInfo.nature + r.value.topTrigramInfo.nature &&
              r.value.combinedAttributes.family == r.value.bottomTrigramInfo.family + r.value.topTrigramInfo.family &&
              r.value.combinedAttributes.elements == r.value.bottomTrigramInfo.element + r.value.topTrigramInfo.element &&
              r.value.yaoCombination == GetYaoCombination(h.yao.value)
  {
    if Decoratable(h, trigrams) then
      var top, bottom := trigrams[h.topTrigram - 1], trigrams[h.bottomTrigram - 1];
      Some(EnhancedHexagram(h, BriefInfo(top), BriefInfo(bottom), Combine(bottom, top), GetYaoCombination(h.yao.value)))
    else
      None
  }

  /** `hexagrams.map(...)`, which throws at the first record it cannot decorate. */
  function EnhanceAll(hexagrams: seq<Hexagram>, trigrams: seq<Trigram>): (r: Option<seq<EnhancedHexagram>>)
    ensures r.Some? <==> forall i :: 0 <= i < |hexagrams| ==> Decoratable(hexagrams[i], trigrams)
    ensures r.Some? ==> (|r.value| == |hexagrams| &&
              forall i :: 0 <= i < |hexagrams| ==> Some(r.value[i]) == EnhanceHexagram(hexagrams[i], trigrams))
  {
    if |hexagrams| == 0 then Some([])
    else
      match EnhanceHexagram(hexagrams[0], trigrams)
      case None => None
      case Some(first) =>
        match EnhanceAll(hexagrams[1..], trigrams)
        case None => None
        case Some(rest) => Some([first] + rest)
  }

  /** The original records underneath a decorated catalog. */
  function Bases(hexagrams: seq<EnhancedHexagram>): seq<Hexagram>
  {
    seq(|hexagrams|, i requires 0 <= i < |hexagrams| => hexagrams[i].base)
  }

  /** enhanceHexagramData: the trigram table is copied, and the decorated catalog
      has the original records, in the original order, underneath. */
  function EnhanceHexagramData(data: Dataset): (r: Option<EnhancedDataset>)
    ensures r.Some? <==> forall i :: 0 <= i < |data.hexagrams| ==> Decoratable(data.hexagrams[i], data.trigrams)
    ensures r.Some? ==> r.value.trigrams == data.trigrams && Bases(r.value.hexagrams) == data.hexagrams
    ensures r.Some? ==> forall i :: 0 <= i < |data.hexagrams| ==>
              Some(r.value.hexagrams[i]) == EnhanceHexagram(data.hexagrams[i], data.trigrams)
  {
    match EnhanceAll(data.hexagrams, data.trigrams)
    case None => None
    case Some(hs) => Some(EnhancedDataset(data.trigrams, hs))
  }
}
