# Annotated data model: list decoding of morphological analyses, annotated texts and entities

This project models three parts of the Rosette annotated data model in Dafny and proves properties of the model.

- **The list decoder for morphological analyses** (`MorphoAnalysisListDeserializer`). It decodes a JSON array of analysis objects.
  - Each object is decoded with the decoder currently in effect: generic, Han or Arabic.
  - If the decoded record still holds leftover properties, the record may be upgraded:
    - a `readings` entry turns it into a Han record;
    - any Arabic-only field turns it into an Arabic record.
  - An upgrade also switches the decoder in effect for the elements that follow. The switch is sticky: it never goes back to generic.
  - The decoder in effect is a field of the decoder object. That field is not reset between calls.
  - Files: `morpho_list_spec.dfy` holds the specification functions and lemmas; `morpho_list_deserializer.dfy` holds the class and the loop procedures, each proved to compute its specification function.
- **`AnnotatedText` and its `Builder`** (`annotated_text.dfy`).
  - The text is an immutable value: a sequence of UTF-16 code units, annotation layers stored under attribute-key names, and document metadata.
  - The builder is a mutable object. Each setter replaces one map entry, and `Build` takes a snapshot.
- **`Entity` and its `Builder`** (`entity.dfy`).
  - An entity is an attribute (a span and a property bag) plus an entity id, a coreference chain id (-1 for none) and a confidence.
  - Its `equals` is modelled with the null-pointer failure it can raise.

Shared value types live in `values.dfy`: `Option`, `Result`, the untyped `Value` of a property bag, and `Attribute`. The analysis records live in `morpho.dfy`.

How Java behaviour is modelled:

- Java exceptions become `Failure` values of `DecodeError`:
  - a `ClassCastException` when a property has the wrong type becomes `BadType`;
  - a null list becomes `MissingList`;
  - a non-string list element becomes `BadElement`;
  - a tags list shorter than its values list becomes `IndexOutOfRange`;
  - a failure of a secondary decoder is carried through unchanged.
- The secondary decoders are parameters of the model. They are function values from a raw JSON object to a decoded record or an error.
- The Java property `lemma` is called `lemmaForm`, because `lemma` is a Dafny keyword.

`deserialize` never resets the decoder in effect. Only binding sets it to generic (`MorphoAnalysisListDeserializer.java` line 72). A later call therefore starts with the decoder the previous call left. `Deserialize` states this, and its last `ensures` shows that a Han or Arabic decoder carries over from one call to the next.

## Model

| member | source | states |
|---|---|---|
| MorphoListSpec.StringsFromCorrect | json/src/main/java/com/basistech/rosette/dm/MorphoAnalysisListDeserializer.java:111-113 | Casting a list to strings succeeds exactly when every remaining element is a string. On success it yields the accumulated strings followed by those elements in order. Otherwise it fails at the first non-string index. |
| MorphoListSpec.StringsOfList | json/src/main/java/com/basistech/rosette/dm/MorphoAnalysisListDeserializer.java:111-113 | The readings list is read in full: it succeeds exactly when all its elements are strings, and the result has the same length and elements in order. |
| MorphoListSpec.HanUpgradeCorrect | json/src/main/java/com/basistech/rosette/dm/MorphoAnalysisListDeserializer.java:106-122 | The Han upgrade succeeds exactly when `readings` is a list of strings. The result keeps the non-empty basic strings and all components, lists the readings in order, and keeps every leftover except `readings`. |
| MorphoListSpec.ZipFromCorrect | json/src/main/java/com/basistech/rosette/dm/MorphoAnalysisListDeserializer.java:145-151 | Pairing values with tags succeeds exactly when, at every index, the value is a string and the tags list exists, is long enough and holds a string. Pairs come out index by index. |
| MorphoListSpec.ZipFromFailure | json/src/main/java/com/basistech/rosette/dm/MorphoAnalysisListDeserializer.java:148-150 | A failed zip fails at the first index that cannot be paired. The exception is the one Java's evaluation order raises at that index: the value's cast (which null passes), then the null tags list, then the bounds check, then the tag's cast (which null passes); only then is a null value, and after it a null tag, refused. |
| MorphoListSpec.NullValueMeetsMissingTags | json/src/main/java/com/basistech/rosette/dm/MorphoAnalysisListDeserializer.java:145-151 | A null prefix with no `prefixTags` list fails on the missing tags list, because `prefixTags.get(x)` is evaluated before the null prefix reaches the builder. |
| MorphoListSpec.NullValueWithTagRefused | json/src/main/java/com/basistech/rosette/dm/MorphoAnalysisListDeserializer.java:145-151 | A null prefix whose tag is a string is refused as a bad prefix element once both arguments are evaluated. |
| MorphoListSpec.ZipFieldCorrect | json/src/main/java/com/basistech/rosette/dm/MorphoAnalysisListDeserializer.java:145-167 | An absent or null values list gives no pairs, whatever the tags are. A present one gives one pair per value, tagged by the same index of the tags list. A wrongly typed values entry makes the zip fail with that cast's error. So does a wrongly typed tags entry, when the values list is present. |
| MorphoListSpec.ArabicUpgradeCorrect | json/src/main/java/com/basistech/rosette/dm/MorphoAnalysisListDeserializer.java:123-176 | The Arabic upgrade succeeds exactly when both length casts, the root cast, both flag casts and all three zips succeed. On success it keeps the basic fields. It sets the lengths, to the bag's integers, only when both are present. It sets the root and each flag, to the bag's value, only when present. Its prefixes, stems and suffixes are the zips of their lists with their tags. It keeps exactly the non-Arabic leftovers, with their values. |
| MorphoListSpec.UpgradeVariant | json/src/main/java/com/basistech/rosette/dm/MorphoAnalysisListDeserializer.java:104-178 | After an element, either the record and the decoder in effect are both unchanged, or the decoder becomes a non-generic one whose shape matches the upgraded record (Han for Han, Arabic for Arabic). |
| MorphoListSpec.EmptyBagPassesThrough | json/src/main/java/com/basistech/rosette/dm/MorphoAnalysisListDeserializer.java:104 | A record without leftovers is kept as decoded, and the decoder in effect does not change. |
| MorphoListSpec.UnrelatedLeftoversKept | json/src/main/java/com/basistech/rosette/dm/MorphoAnalysisListDeserializer.java:104-178 | Leftovers with neither `readings` nor any Arabic field leave the record and the decoder in effect unchanged. |
| MorphoListSpec.ReadingsUpgradeToHan | json/src/main/java/com/basistech/rosette/dm/MorphoAnalysisListDeserializer.java:106-122 | A string-list `readings` always upgrades the record to Han, even when Arabic fields are also present. The element's outcome is exactly the Han upgrade's record, with the Han decoder in effect afterwards. |
| MorphoListSpec.ReadingsFailureFailsElement | json/src/main/java/com/basistech/rosette/dm/MorphoAnalysisListDeserializer.java:106-113 | When `readings` is present but the Han upgrade fails, the element fails with that same error, whatever else the bag holds. A list-typed `readings` then has some non-string element. |
| MorphoListSpec.ArabicFieldsUpgradeToArabic | json/src/main/java/com/basistech/rosette/dm/MorphoAnalysisListDeserializer.java:123-176 | Without `readings`, any Arabic field makes the element's outcome exactly the Arabic upgrade. On success the element is that record and the Arabic decoder is in effect afterwards. On failure the element fails with the upgrade's error. |
| MorphoListSpec.RunOnePerElement | json/src/main/java/com/basistech/rosette/dm/MorphoAnalysisListDeserializer.java:99-181 | A successful decode yields one record per array element, in order, after any records already accumulated. Each record is what its element decodes to under the decoder left in effect by the elements before it. |
| MorphoListSpec.DecodedLengthMatches | json/src/main/java/com/basistech/rosette/dm/MorphoAnalysisListDeserializer.java:99-181 | A successful decode returns exactly as many records as the array has elements. |
| MorphoListSpec.StepKeepsNonGeneric | json/src/main/java/com/basistech/rosette/dm/MorphoAnalysisListDeserializer.java:103-177 | Decoding one element with the Han or Arabic decoder in effect never leaves the generic decoder in effect. |
| MorphoListSpec.RunSticky | json/src/main/java/com/basistech/rosette/dm/MorphoAnalysisListDeserializer.java:122-176 | Once the decoder in effect is Han or Arabic, it never reverts to generic, whatever follows. |
| MorphoListSpec.RunFailurePropagates | json/src/main/java/com/basistech/rosette/dm/MorphoAnalysisListDeserializer.java:99-122 | A failed decode stops at the first element that fails. The run's error is that element's error, unchanged. Every element before it decoded, each under the decoder the previous one left. The decoder those elements switched to stays in effect after the failure. |
| MorphoListSpec.TraceSticky | json/src/main/java/com/basistech/rosette/dm/MorphoAnalysisListDeserializer.java:103-177 | Element by element: once one element is decoded with the Han or Arabic decoder, so is every later element of the array. |
| MorphoListSpec.UpgradeInfectsRest | json/src/main/java/com/basistech/rosette/dm/MorphoAnalysisListDeserializer.java:103-180 | If one element switches the decoder in effect away from generic, the decode ends with a non-generic decoder in effect. |
| MorphoListSpec.StickySwitchScenario | json/src/main/java/com/basistech/rosette/dm/MorphoAnalysisListDeserializer.java:103-122 | In a two-element array whose first element carries readings, the second element, which carries only a lemma, is decoded as a Han record by the Han decoder. |
| MorphoListSpec.NoUpgradeScenario | json/src/main/java/com/basistech/rosette/dm/MorphoAnalysisListDeserializer.java:103-179 | An element with an unrelated leftover stays a generic record that keeps the leftover, and the generic decoder stays in effect. |
| MorphoListSpec.ArabicScenario | json/src/main/java/com/basistech/rosette/dm/MorphoAnalysisListDeserializer.java:123-176 | A generic record whose leftovers are both lengths, one prefix and its tag is upgraded to an Arabic record with those lengths and that one pair, with nothing left over, and the Arabic decoder takes effect. |
| MorphoListDeserializer.AnyArabicFields | json/src/main/java/com/basistech/rosette/dm/MorphoAnalysisListDeserializer.java:76-83 | The loop reports true exactly when some key is an Arabic-only field. |
| MorphoListDeserializer.CopyBasic | json/src/main/java/com/basistech/rosette/dm/MorphoAnalysisListDeserializer.java:184-200 | Copies lemma, part of speech and raw only when they are non-empty, and copies every component in order, into an otherwise empty record. |
| MorphoListDeserializer.KeepEntries | json/src/main/java/com/basistech/rosette/dm/MorphoAnalysisListDeserializer.java:169-173 | Re-adding leftovers one by one keeps exactly the entries whose keys are not excluded, with their values. |
| MorphoListDeserializer.CastStrings | json/src/main/java/com/basistech/rosette/dm/MorphoAnalysisListDeserializer.java:111-113 | The element loop computes the string cast of a list, failing at the first non-string element. |
| MorphoListDeserializer.ZipTagged | json/src/main/java/com/basistech/rosette/dm/MorphoAnalysisListDeserializer.java:145-151 | The index loop computes the value/tag pairing of one Arabic field pair, with the same failures. |
| MorphoListDeserializer.ToHan | json/src/main/java/com/basistech/rosette/dm/MorphoAnalysisListDeserializer.java:106-121 | Computes the Han upgrade of a record whose leftovers hold `readings`. |
| MorphoListDeserializer.ToArabic | json/src/main/java/com/basistech/rosette/dm/MorphoAnalysisListDeserializer.java:123-175 | Computes the Arabic upgrade of a record. |
| MorphoListDeserializer.UpgradeRecord | json/src/main/java/com/basistech/rosette/dm/MorphoAnalysisListDeserializer.java:104-178 | The per-element branch computes the element upgrade: no leftovers keeps the record, `readings` gives the Han record, an Arabic field gives the Arabic record, and the result names the decoder for the next element. |
| MorphoListDeserializer.MorphoAnalysisListDeserializer.constructor | json/src/main/java/com/basistech/rosette/dm/MorphoAnalysisListDeserializer.java:61-63 | The public constructor yields an unbound instance with no decoders. |
| MorphoListDeserializer.MorphoAnalysisListDeserializer.Contextual | json/src/main/java/com/basistech/rosette/dm/MorphoAnalysisListDeserializer.java:65-74 | The contextual constructor holds the resolved decoders, starts with the generic decoder and is marked bound. |
| MorphoListDeserializer.MorphoAnalysisListDeserializer.CreateContextual | json/src/main/java/com/basistech/rosette/dm/MorphoAnalysisListDeserializer.java:207-216 | A bound instance returns itself. An unbound one returns a fresh bound instance with the generic decoder in effect. |
| MorphoListDeserializer.MorphoAnalysisListDeserializer.Deserialize | json/src/main/java/com/basistech/rosette/dm/MorphoAnalysisListDeserializer.java:86-182 | An unbound instance fails, and a token other than an array start fails; neither changes state. Otherwise the call returns the element-by-element decode of the array, starting from the decoder the previous call left. That decode's final decoder stays in effect, and a Han or Arabic decoder never reverts to generic. |
| AnnotatedTexts.AnnotatedText.Length | model/src/main/java/com/basistech/rosette/dm/AnnotatedText.java:77-79 | The length is the number of UTF-16 code units in the text, as Java counts it; a character outside the Basic Multilingual Plane counts twice. |
| AnnotatedTexts.AnnotatedText.CharAt | model/src/main/java/com/basistech/rosette/dm/AnnotatedText.java:88-90 | Yields a code unit exactly for an index in range, and that unit is the text's UTF-16 code unit there. Any other index throws. |
| AnnotatedTexts.AnnotatedText.ToString | model/src/main/java/com/basistech/rosette/dm/AnnotatedText.java:235-237 | The string has the text's length and agrees with `charAt` at every index. |
| AnnotatedTexts.AnnotatedText.ListLayer | model/src/main/java/com/basistech/rosette/dm/AnnotatedText.java:134-226 | A typed layer getter reads the value stored under its key's name. It yields null exactly when nothing is stored there and the stored value exactly when that value is a layer; a value of another class is a cast failure. All nine typed list getters are this function at their keys. |
| AnnotatedTexts.AnnotatedText.WholeTextLanguageDetection | model/src/main/java/com/basistech/rosette/dm/AnnotatedText.java:174-176 | The same for the whole-text language detection under `languageDetection`. |
| AnnotatedTexts.Builder.constructor | model/src/main/java/com/basistech/rosette/dm/AnnotatedText.java:250-252 | A new builder holds the empty string, no layers and no metadata. |
| AnnotatedTexts.Builder.FromText | model/src/main/java/com/basistech/rosette/dm/AnnotatedText.java:259-263 | A builder seeded from a text holds its text, all its layers and all its metadata. |
| AnnotatedTexts.Builder.SetData | model/src/main/java/com/basistech/rosette/dm/AnnotatedText.java:271-274 | Replaces the text. |
| AnnotatedTexts.Builder.AttributeByName | model/src/main/java/com/basistech/rosette/dm/AnnotatedText.java:402-405 | Replaces the value under one key name and keeps every other entry. |
| AnnotatedTexts.Builder.AttributeByKey | model/src/main/java/com/basistech/rosette/dm/AnnotatedText.java:414-417 | Replaces the value under a catalogued key's name. |
| AnnotatedTexts.Builder.BaseNounPhrases | model/src/main/java/com/basistech/rosette/dm/AnnotatedText.java:291-294 | Stores the layer under `baseNounPhrase`; all other entries are unchanged. |
| AnnotatedTexts.Builder.EntityMentions | model/src/main/java/com/basistech/rosette/dm/AnnotatedText.java:302-305 | Stores the layer under `entityMention`. |
| AnnotatedTexts.Builder.ResolvedEntities | model/src/main/java/com/basistech/rosette/dm/AnnotatedText.java:313-316 | Stores the layer under `resolvedEntity`. |
| AnnotatedTexts.Builder.LanguageDetectionRegions | model/src/main/java/com/basistech/rosette/dm/AnnotatedText.java:324-327 | Stores the layer under `languageDetectionRegions`. |
| AnnotatedTexts.Builder.WholeDocumentLanguageDetection | model/src/main/java/com/basistech/rosette/dm/AnnotatedText.java:335-338 | Stores the detection under `languageDetection`. |
| AnnotatedTexts.Builder.ScriptRegions | model/src/main/java/com/basistech/rosette/dm/AnnotatedText.java:346-349 | Stores the layer under `scriptRegion`. |
| AnnotatedTexts.Builder.Sentences | model/src/main/java/com/basistech/rosette/dm/AnnotatedText.java:357-360 | Stores the layer under `sentence`. |
| AnnotatedTexts.Builder.Tokens | model/src/main/java/com/basistech/rosette/dm/AnnotatedText.java:368-371 | Stores the layer under `token`. |
| AnnotatedTexts.Builder.TranslatedTokens | model/src/main/java/com/basistech/rosette/dm/AnnotatedText.java:379-382 | Stores the layer under `translatedTokens`. |
| AnnotatedTexts.Builder.TranslatedData | model/src/main/java/com/basistech/rosette/dm/AnnotatedText.java:390-393 | Stores the layer under `translatedData`. |
| AnnotatedTexts.Builder.DocumentMetadataList | model/src/main/java/com/basistech/rosette/dm/AnnotatedText.java:435-438 | Stores a copy of the list under the key. |
| AnnotatedTexts.Builder.DocumentMetadataString | model/src/main/java/com/basistech/rosette/dm/AnnotatedText.java:448-451 | Stores the one-element list holding the string under the key. |
| AnnotatedTexts.Builder.Build | model/src/main/java/com/basistech/rosette/dm/AnnotatedText.java:467-469 | The built text holds the builder's text, layers and metadata. |
| AnnotatedTexts.BuildFresh | model/src/main/java/com/basistech/rosette/dm/AnnotatedText.java:250-252 | A fresh builder builds an empty text with no metadata, and every getter reports null. |
| AnnotatedTexts.CopyAndBuild | model/src/main/java/com/basistech/rosette/dm/AnnotatedText.java:259-263 | Seeding a builder from a text and building at once gives back the same text. |
| AnnotatedTexts.AttachToExisting | model/src/main/java/com/basistech/rosette/dm/AnnotatedText.java:414-417 | After a layer is attached to a copy of any text, the layer read under its key (`ListLayer`, the shape of the typed list getters) is that layer, every other key reads as before, and the text and metadata are kept. |
| AnnotatedTexts.AttachAndRead | model/src/main/java/com/basistech/rosette/dm/AnnotatedText.java:357-371 | A layer stored by its typed setter is what the matching getter returns after build. A setter for another key does not disturb it, and an unset key still reads null. |
| AnnotatedTexts.ReplaceAndNormalise | model/src/main/java/com/basistech/rosette/dm/AnnotatedText.java:435-451 | When the same key is set twice, the second value wins. A single metadata string is read back as a one-element list. |
| AnnotatedTexts.BuildIsSnapshot | model/src/main/java/com/basistech/rosette/dm/AnnotatedText.java:53-59 | A built text is a snapshot: changing the builder afterwards leaves it as it was. |
| Entities.Entity.Equals | model/src/main/java/com/basistech/rosette/dm/Entity.java:64-88 | The same object is equal; null or another class is not equal. A different span or bag is not equal, even with a null entity id. With a null entity id and an equal span and bag, the call throws. Otherwise two entities with a set id are equal exactly when all their fields agree, confidence compared by its canonical bits. |
| Entities.EqualsReflexiveAndDiscriminating | model/src/main/java/com/basistech/rosette/dm/Entity.java:77-85 | With a set id, equality holds between copies and fails on a different id or chain id. It is symmetric when both ids are set. |
| Entities.WithoutProperties | model/src/main/java/com/basistech/rosette/dm/Entity.java:36-42 | The five-argument constructor sets the span, id, chain and confidence, with an empty bag. |
| Entities.Blank | model/src/main/java/com/basistech/rosette/dm/Entity.java:44-49 | The no-argument constructor gives a null id, confidence 0.0 and chain id -1. |
| Entities.Builder.constructor | model/src/main/java/com/basistech/rosette/dm/Entity.java:113-120 | A builder from a span and an id has no chain (-1), confidence 0.0 and an empty bag. |
| Entities.Builder.FromEntity | model/src/main/java/com/basistech/rosette/dm/Entity.java:122-127 | The copy constructor takes every field of the entity. |
| Entities.Builder.SetEntityId | model/src/main/java/com/basistech/rosette/dm/Entity.java:129-131 | Replaces the id only. |
| Entities.Builder.SetConfidence | model/src/main/java/com/basistech/rosette/dm/Entity.java:133-135 | Replaces the confidence only. |
| Entities.Builder.SetCoreferenceChainId | model/src/main/java/com/basistech/rosette/dm/Entity.java:137-139 | Replaces the chain id only. |
| Entities.Builder.Build | model/src/main/java/com/basistech/rosette/dm/Entity.java:141-143 | The built entity holds the builder's span, bag, id, chain id and confidence. |
| Entities.CopyAndBuild | model/src/main/java/com/basistech/rosette/dm/Entity.java:122-143 | Copying an entity into a builder and building gives the same entity, and the original equals the copy when its id is set. |
| Entities.BuildWithDefaults | model/src/main/java/com/basistech/rosette/dm/Entity.java:113-120 | A builder given only a span and an id builds an entity with no chain, confidence 0.0 and no properties. |
| Entities.SetChainOnly | model/src/main/java/com/basistech/rosette/dm/Entity.java:122-143 | Setting the chain id on a copy changes the chain id and nothing else. |

## Left out

- Jackson's streaming parser is reduced to the token the call starts on plus the list of element objects. Two things are therefore not modelled: where the parser stands after a failure, and malformed JSON inside an element.
- Resolving the three secondary decoders (`findRootValueDeserializer`) and the `JsonMappingException` that resolution can raise are not modelled. The decoders are given to the contextual constructor.
- The secondary decoders themselves belong to the JSON mixins and bean decoders, which are not part of this model. They are parameters of the model, and the worked examples use simple example decoders.
- The reflection that computes `ARABIC_FIELDS` is not modelled. The eleven names are written out as a constant: the fields of the Arabic analysis that the base analysis lacks.
- The builders of the Han and Arabic analysis records are not part of this model. A field an Arabic builder is not given is `None`, and a null list element that reaches a builder counts as a non-string element (`BadElement`). In the Arabic zips that happens only after both arguments of the add call are evaluated, so a missing, short or wrongly typed tags list is reported first.
- A null component list is read as an empty list.
- Integers larger than 32 bits arrive as `Long` and would fail the `Integer` cast. The model has no separate `Long` value: such numbers are `JOther`.
- `Deserialize`: concurrent use of one bound instance by two threads, which would race on the decoder in effect, is not modelled.
- `AnnotatedText.subSequence` is not modelled: it only delegates to the underlying character sequence.
- The Java getters `getData`, `getAttributes` and `getDocumentMetadata`, and the builder's `data()`, `attributes()` and `documentMetadata()`, are plain field reads. The builder's `attributes()` and `documentMetadata()` return the live maps, and writes through those aliases are not modelled.
- `AnnotatedTexts.Builder.FromText`, `AnnotatedTexts.Builder.Build`, `AnnotatedTexts.Builder.SetData`, `AnnotatedTexts.Builder.DocumentMetadataString`, `AnnotatedTexts.CopyAndBuild`, `AnnotatedTexts.BuildIsSnapshot`: the text and the metadata lists are values here, so two aliases of the Java code are not captured. First, the `CharSequence` passed to `data(...)` is kept by reference: the copy constructor shares it (line 260) and `build()` passes it on (line 468), so a `StringBuilder` changed after `build()` changes the built text. Second, `documentMetadata(key, String)` stores a mutable `ArrayList` (line 449), and `ImmutableMap.copyOf` (line 58) copies only the map, so every text built from that builder shares the list. The snapshot claims hold only for immutable texts and for lists nobody mutates.
- Null arguments to the builder setters are not modelled. When the snapshot is built, the immutable copy rejects null values.
- Builder methods in Java return the builder for chaining. Here they return nothing.
- `AttributeKey.java` is not part of this model. The key names used here are the wire names of the ten keys.
- The layer record types (`ListAttribute`, `Token`, `LanguageDetection` and the rest) are reduced to a base attribute plus a tag for the class, so the typed getters' casts can be modelled.
- `Entity.hashCode` and `toStringHelper` are not modelled. Floating-point hashing and string rendering are outside what is proved.
- The numeric value of an entity's confidence is not modelled. Only its canonical bit pattern is, which is what `Double.compare` tests for equality.
- The base attribute's `equals` is taken to compare span and bag structurally. The base attribute's no-argument constructor is taken to give offsets 0 and an empty bag.
- The encoding direction, which writes JSON from records, is not part of the modelled core.
