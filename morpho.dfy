/**
 * The morphological-analysis variant family: a generic record and its Han and
 * Arabic refinements. All three share the common fields (lemma, part of
 * speech, raw form, component tokens) and an extended-properties bag.
 */
module Morpho {
  import opened Values

  /** A reference to a token of the owning text; tokens are opaque here. */
  datatype TokenRef = TokenRef(id: nat)

  /** One (value, tag) pair of an Arabic prefix, stem or suffix list. */
  datatype Tagged = Tagged(text: string, tag: string)

  /** Which of the three record shapes a decoder produces. */
  datatype Variant = GenericVariant | HanVariant | ArabicVariant

  /**
   * A morphological analysis. Optional strings are None when the Java field is
   * null. Arabic fields that the builder was never given are None.
   */
  datatype MorphoAnalysis =
    | Generic(lemmaForm: Option<string>, partOfSpeech: Option<string>, raw: Option<string>,
              components: seq<TokenRef>, extendedProperties: Bag)
    | Han(lemmaForm: Option<string>, partOfSpeech: Option<string>, raw: Option<string>,
          components: seq<TokenRef>, extendedProperties: Bag,
          readings: seq<string>)
    | Arabic(lemmaForm: Option<string>, partOfSpeech: Option<string>, raw: Option<string>,
             components: seq<TokenRef>, extendedProperties: Bag,
             lengths: Option<(int, int)>, root: Option<string>,
             definiteArticle: Option<bool>, strippablePrefix: Option<bool>,
             prefixes: seq<Tagged>, stems: seq<Tagged>, suffixes: seq<Tagged>)
  {
    /** The shape of this record. */
    function VariantOf(): Variant {
      match this
      case Generic(_, _, _, _, _) => GenericVariant
      case Han(_, _, _, _, _, _) => HanVariant
      case Arabic(_, _, _, _, _, _, _, _, _, _, _, _) => ArabicVariant
    }
  }
}
