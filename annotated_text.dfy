/**
 * The root of the data model: a text, the annotation layers attached to it
 * (at most one per attribute key) and its document metadata. AnnotatedText
 * is an immutable value; its Builder is a mutable object whose setters
 * replace one map entry at a time and whose Build takes a snapshot.
 */
module AnnotatedTexts {
  import opened Values

  /** A UTF-16 code unit: what Java's char holds, and what length() and charAt() count. */
  newtype CodeUnit = c: int | 0 <= c < 0x1_0000

  /**
   * A character sequence as Java sees it: UTF-16 code units, so a character
   * outside the Basic Multilingual Plane takes two (a surrogate pair).
   */
  type Text = seq<CodeUnit>

  /** The closed catalogue of attribute keys. */
  datatype AttributeKey =
    | TokenKey | SentenceKey | EntityMentionKey | ResolvedEntityKey | ScriptRegionKey
    | BaseNounPhraseKey | LanguageDetectionKey | LanguageDetectionRegionsKey
    | TranslatedTokensKey | TranslatedDataKey

  /** The canonical wire name of a key (AttributeKey.key()). */
  function KeyName(k: AttributeKey): string {
    match k
    case TokenKey => "token"
    case SentenceKey => "sentence"
    case EntityMentionKey => "entityMention"
    case ResolvedEntityKey => "resolvedEntity"
    case ScriptRegionKey => "scriptRegion"
    case BaseNounPhraseKey => "baseNounPhrase"
    case LanguageDetectionKey => "languageDetection"
    case LanguageDetectionRegionsKey => "languageDetectionRegions"
    case TranslatedTokensKey => "translatedTokens"
    case TranslatedDataKey => "translatedData"
  }

  /**
   * A value attached under a key: a whole layer (a ListAttribute: records plus
   * the layer's own bag), a whole-text language detection, or any other
   * attribute stored through the untyped setter.
   */
  datatype BaseAttribute =
    | ListAttribute(items: seq<Attribute>, extendedProperties: Bag)
    | LanguageDetection(detection: Attribute)
    | OtherAttribute(attribute: Attribute)

  /** What the typed layer setters accept. */
  type Layer = a: BaseAttribute | a.ListAttribute? witness ListAttribute([], map[])

  /** What the whole-document language-detection setter accepts. */
  type Detection = a: BaseAttribute | a.LanguageDetection? witness LanguageDetection(Attribute(0, 0, map[]))

  /**
   * What a typed getter yields: null when nothing is attached under its key,
   * the attached value when it has the getter's class, and a
   * ClassCastException (CastFailure) when a value of another class was
   * attached under that key.
   */
  datatype Lookup = Absent | Found(attribute: BaseAttribute) | CastFailure

  /** The immutable snapshot. */
  datatype AnnotatedText = AnnotatedText(
    data: Text,
    attributes: map<string, BaseAttribute>,
    documentMetadata: map<string, seq<string>>)
  {
    /** length(): the number of UTF-16 code units in the text. */
    function Length(): (n: nat)
      ensures n == |data|
    {
      |data|
    }

    /** charAt(index): the code unit at index; an index out of range throws (None). */
    function CharAt(index: int): (c: Option<CodeUnit>)
      ensures c.Some? <==> 0 <= index < |data|
      ensures c.Some? ==> c.value == data[index]
    {
      if 0 <= index < |data| then Some(data[index]) else None
    }

    /** toString(): the text itself. */
    function ToString(): (s: Text)
      ensures |s| == Length() && forall i :: 0 <= i < |s| ==> CharAt(i) == Some(s[i])
    {
      data
    }

    /**
     * The layer attached under key, read as a ListAttribute: absent when
     * nothing is attached, found when the value is a layer, a cast failure
     * otherwise.
     */
    function ListLayer(key: AttributeKey): (r: Lookup)
      ensures r == Absent <==> KeyName(key) !in attributes
      ensures r.Found? <==> KeyName(key) in attributes && attributes[KeyName(key)].ListAttribute?
      ensures r.Found? ==> r.attribute == attributes[KeyName(key)]
    {
      if KeyName(key) !in attributes then Absent
      else if attributes[KeyName(key)].ListAttribute? then Found(attributes[KeyName(key)])
      else CastFailure
    }

    function Tokens(): Lookup { ListLayer(TokenKey) }
    function TranslatedTokens(): Lookup { ListLayer(TranslatedTokensKey) }
    function TranslatedData(): Lookup { ListLayer(TranslatedDataKey) }
    function LanguageDetectionRegions(): Lookup { ListLayer(LanguageDetectionRegionsKey) }
    function EntityMentions(): Lookup { ListLayer(EntityMentionKey) }
    function ResolvedEntities(): Lookup { ListLayer(ResolvedEntityKey) }
    function ScriptRegions(): Lookup { ListLayer(ScriptRegionKey) }
    function Sentences(): Lookup { ListLayer(SentenceKey) }
    function BaseNounPhrases(): Lookup { ListLayer(BaseNounPhraseKey) }

    /** getWholeTextLanguageDetection(): the value under languageDetection, read as a LanguageDetection. */
    function WholeTextLanguageDetection(): (r: Lookup)
      ensures r == Absent <==> KeyName(LanguageDetectionKey) !in attributes
      ensures r.Found? <==>
        KeyName(LanguageDetectionKey) in attributes && attributes[KeyName(LanguageDetectionKey)].LanguageDetection?
      ensures r.Found? ==> r.attribute == attributes[KeyName(LanguageDetectionKey)]
    {
      var name := KeyName(LanguageDetectionKey);
      if name !in attributes then Absent
      else if attributes[name].LanguageDetection? then Found(attributes[name])
      else CastFailure
    }
  }

  /** The mutable builder. */
  class Builder {
    var data: Text
    var attributes: map<string, BaseAttribute>
    var documentMetadata: map<string, seq<string>>

    /** A builder over the empty string with nothing attached. */
    constructor ()
      ensures data == [] && attributes == map[] && documentMetadata == map[]
    {
      data := [];
      attributes := map[];
      documentMetadata := map[];
    }

    /** A builder seeded with the text, layers and metadata of startingPoint. */
    constructor FromText(startingPoint: AnnotatedText)
      ensures data == startingPoint.data
      ensures attributes == startingPoint.attributes
      ensures documentMetadata == startingPoint.documentMetadata
    {
      data := startingPoint.data;
      attributes := map[];
      documentMetadata := map[];
      attributes := attributes + startingPoint.attributes;
      documentMetadata := documentMetadata + startingPoint.documentMetadata;
    }

    /** data(CharSequence): replace the text. */
    method SetData(text: Text)
      modifies this`data
      ensures data == text
    {
      data := text;
    }

    /** attribute(String, BaseAttribute): replace the value under one key name. */
    method AttributeByName(key: string, attribute: BaseAttribute)
      modifies this`attributes
      ensures attributes == old(attributes)[key := attribute]
    {
      attributes := attributes[key := attribute];
    }

    /** attribute(AttributeKey, BaseAttribute): replace the value under a catalogued key. */
    method AttributeByKey(key: AttributeKey, attribute: BaseAttribute)
      modifies this`attributes
      ensures attributes == old(attributes)[KeyName(key) := attribute]
    {
      attributes := attributes[KeyName(key) := attribute];
    }

    method BaseNounPhrases(baseNounPhrases: Layer)
      modifies this`attributes
      ensures attributes == old(attributes)[KeyName(BaseNounPhraseKey) := baseNounPhrases]
    {
      attributes := attributes[KeyName(BaseNounPhraseKey) := baseNounPhrases];
    }

    method EntityMentions(entityMentions: Layer)
      modifies this`attributes
      ensures attributes == old(attributes)[KeyName(EntityMentionKey) := entityMentions]
    {
      attributes := attributes[KeyName(EntityMentionKey) := entityMentions];
    }

    method ResolvedEntities(resolvedEntities: Layer)
      modifies this`attributes
      ensures attributes == old(attributes)[KeyName(ResolvedEntityKey) := resolvedEntities]
    {
      attributes := attributes[KeyName(ResolvedEntityKey) := resolvedEntities];
    }

    method LanguageDetectionRegions(languageDetectionRegions: Layer)
      modifies this`attributes
      ensures attributes == old(attributes)[KeyName(LanguageDetectionRegionsKey) := languageDetectionRegions]
    {
      attributes := attributes[KeyName(LanguageDetectionRegionsKey) := languageDetectionRegions];
    }

    method WholeDocumentLanguageDetection(languageDetection: Detection)
      modifies this`attributes
      ensures attributes == old(attributes)[KeyName(LanguageDetectionKey) := languageDetection]
    {
      attributes := attributes[KeyName(LanguageDetectionKey) := languageDetection];
    }

    method ScriptRegions(scriptRegions: Layer)
      modifies this`attributes
      ensures attributes == old(attributes)[KeyName(ScriptRegionKey) := scriptRegions]
    {
      attributes := attributes[KeyName(ScriptRegionKey) := scriptRegions];
    }

    method Sentences(sentences: Layer)
      modifies this`attributes
      ensures attributes == old(attributes)[KeyName(SentenceKey) := sentences]
    {
      attributes := attributes[KeyName(SentenceKey) := sentences];
    }

    method Tokens(tokens: Layer)
      modifies this`attributes
      ensures attributes == old(attributes)[KeyName(TokenKey) := tokens]
    {
      attributes := attributes[KeyName(TokenKey) := tokens];
    }

    method TranslatedTokens(translatedTokens: Layer)
      modifies this`attributes
      ensures attributes == old(attributes)[KeyName(TranslatedTokensKey) := translatedTokens]
    {
      attributes := attributes[KeyName(TranslatedTokensKey) := translatedTokens];
    }

    method TranslatedData(translatedData: Layer)
      modifies this`attributes
      ensures attributes == old(attributes)[KeyName(TranslatedDataKey) := translatedData]
    {
      attributes := attributes[KeyName(TranslatedDataKey) := translatedData];
    }

    /** documentMetadata(String, List<String>): store a copy of the list under key. */
    method DocumentMetadataList(key: string, value: seq<string>)
      modifies this`documentMetadata
      ensures documentMetadata == old(documentMetadata)[key := value]
    {
      documentMetadata := documentMetadata[key := value];
    }

    /** documentMetadata(String, String): store the one-element list [value] under key. */
    method DocumentMetadataString(key: string, value: string)
      modifies this`documentMetadata
      ensures documentMetadata == old(documentMetadata)[key := [value]]
    {
      documentMetadata := documentMetadata[key := [value]];
    }

    /** build(): a snapshot of the text, the layers and the metadata. */
    method Build() returns (t: AnnotatedText)
      ensures t.data == data && t.attributes == attributes && t.documentMetadata == documentMetadata
    {
      t := AnnotatedText(data, attributes, documentMetadata);
    }
  }

  /** A fresh builder builds the empty text with no layers, and every getter reports absence. */
  method BuildFresh() returns (t: AnnotatedText)
    ensures t.data == [] && t.Length() == 0
    ensures t.attributes == map[] && t.documentMetadata == map[]
    ensures t.Tokens() == Absent && t.Sentences() == Absent && t.WholeTextLanguageDetection() == Absent
  {
    var b := new Builder();
    t := b.Build();
  }

  /** Copy-constructing a builder from t and building at once gives t back. */
  method CopyAndBuild(t: AnnotatedText) returns (u: AnnotatedText)
    ensures u == t
  {
    var b := new Builder.FromText(t);
    u := b.Build();
  }

  /**
   * A layer attached by its setter is what its getter returns after build;
   * a later attachment under another key does not disturb it.
   */
  method AttachAndRead(tokens: Layer, sentences: Layer) returns (t: AnnotatedText)
    ensures t.Tokens() == Found(tokens)
    ensures t.Sentences() == Found(sentences)
    ensures t.EntityMentions() == Absent
  {
    var b := new Builder();
    b.Tokens(tokens);
    b.Sentences(sentences);
    t := b.Build();
  }

  /**
   * Attaching a layer by key to a copy of any text: reading the layer stored
   * under that key (ListLayer) then finds it, every other key reads as
   * before, and the text and metadata are kept.
   */
  method AttachToExisting(t: AnnotatedText, key: AttributeKey, layer: Layer, other: AttributeKey)
    returns (u: AnnotatedText)
    ensures u.ListLayer(key) == Found(layer)
    ensures other != key ==> u.ListLayer(other) == t.ListLayer(other)
    ensures u.data == t.data && u.documentMetadata == t.documentMetadata
  {
    var b := new Builder.FromText(t);
    b.AttributeByKey(key, layer);
    u := b.Build();
  }

  /**
   * Last write wins: attaching twice under one key keeps the second value,
   * and a single string of metadata is stored as a one-element list.
   */
  method ReplaceAndNormalise(first: Layer, second: Layer, key: string, value: string) returns (t: AnnotatedText)
    ensures t.Tokens() == Found(second)
    ensures key in t.documentMetadata && t.documentMetadata[key] == [value]
  {
    var b := new Builder();
    b.Tokens(first);
    b.DocumentMetadataList(key, [value, value]);
    b.Tokens(second);
    b.DocumentMetadataString(key, value);
    t := b.Build();
  }

  /** A built text is a snapshot: changing the builder afterwards does not change it. */
  method BuildIsSnapshot(tokens: Layer, later: Layer, key: string, value: seq<string>)
    returns (before: AnnotatedText, after: AnnotatedText)
    ensures before.Tokens() == Found(tokens) && key !in before.documentMetadata
    ensures after.Tokens() == Found(later) && key in after.documentMetadata && after.documentMetadata[key] == value
  {
    var b := new Builder();
    b.Tokens(tokens);
    before := b.Build();
    b.Tokens(later);
    b.DocumentMetadataList(key, value);
    after := b.Build();
  }
}
