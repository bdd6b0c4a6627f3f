/** The shapes of the records in the reference dataset (`data.json`): trigrams,
    hexagrams and their line (爻) texts, and the summaries the decorating code
    builds from them. Text fields are kept as opaque strings. */
module Records {
  import opened Common

  /** One of the eight trigrams as the dataset describes it. `animal` and `body`
      are read only by the decorator in src/utils/plumBlossom.js and may be absent. */
  datatype Trigram = Trigram(
    number: int, name: string, binary: string,
    character: string, nature: string, element: string, family: string,
    position: string, temperament: string,
    animal: Option<string>, body: Option<string>)

  /** The commentary attached to a line; the decorators read only its `text`. */
  datatype Description = Description(text: seq<string>)

  /** One line (爻) text, with an optional commentary. */
  datatype Yao = Yao(text: string, description: Option<Description>)

  /** A hexagram record. `binary` is the 6-line pattern, index 0 being the top line;
      `yao` is the list of line texts (six, or seven with the 用 line) and may be missing. */
  datatype Hexagram = Hexagram(
    number: int, name: string, character: string, binary: string,
    topTrigram: int, bottomTrigram: int,
    text: string, description: string,
    yao: Option<seq<Yao>>)

  /** The loaded dataset: the trigram table and the hexagram catalog. */
  datatype Dataset = Dataset(trigrams: seq<Trigram>, hexagrams: seq<Hexagram>)

  /** The copy of a trigram's descriptive fields attached to a hexagram. The
      decorator of src/utils/enhanceHexagramData.js copies seven fields and leaves
      `animal`/`body` unset (None). */
  datatype TrigramInfo = TrigramInfo(
    name: string, character: string, nature: string, element: string,
    family: string, position: string, temperament: string,
    animal: Option<string>, body: Option<string>)

  /** Bottom-then-top concatenations of three descriptive fields. */
  datatype CombinedAttributes = CombinedAttributes(nature: string, family: string, elements: string)

  /** The summary of one line text: its text and its commentary's text (or []). */
  datatype YaoSummary = YaoSummary(text: string, description: seq<string>)

  /** A hexagram record decorated with its trigrams' descriptions and line
      summaries; `base` holds every field of the original record unchanged. */
  datatype EnhancedHexagram = EnhancedHexagram(
    base: Hexagram, topTrigramInfo: TrigramInfo, bottomTrigramInfo: TrigramInfo,
    combinedAttributes: CombinedAttributes, yaoCombination: YaoCombination)

  /** The seven line summaries, from the initial line to the 用 line; null is None. */
  datatype YaoCombination = YaoCombination(
    initial: Option<YaoSummary>, second: Option<YaoSummary>, third: Option<YaoSummary>,
    fourth: Option<YaoSummary>, fifth: Option<YaoSummary>, sixth: Option<YaoSummary>,
    usage: Option<YaoSummary>)
  {
    /** The entry for line index k (0 = initial … 5 = sixth, 6 = usage). */
    function Entry(k: nat): Option<YaoSummary>
      requires k < 7
    {
      match k
      case 0 => initial
      case 1 => second
      case 2 => third
      case 3 => fourth
      case 4 => fifth
      case 5 => sixth
      case _ => usage
    }
  }
}
