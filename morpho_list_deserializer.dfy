/**
 * The list decoder itself: a class whose `current` field (the decoder in
 * effect) is switched stickily while an array is decoded and is not reset
 * between calls, and the helper procedures it runs per element. Every
 * procedure is proved to compute the function of the same name in
 * MorphoListSpec.
 */
module MorphoListDeserializer {
  import opened Values
  import opened Morpho
  import opened MorphoListSpec

  /** Does any of the given keys name an Arabic field? */
  method AnyArabicFields(fields: set<string>) returns (found: bool)
    ensures found <==> AnyArabicField(fields)
  {
    var rest := fields;
    while rest != {}
      invariant rest <= fields
      invariant forall k :: k in fields - rest ==> k !in ArabicFields
      decreases rest
    {
      var field :| field in rest;
      if field in ArabicFields {
        return true;
      }
      rest := rest - {field};
    }
    return false;
  }

  /** copyBasic: the non-empty strings and every component, in order, into a fresh builder. */
  method CopyBasic(a: MorphoAnalysis) returns (b: MorphoAnalysis)
    ensures b == BasicOf(a)
  {
    var components: seq<TokenRef> := [];
    for i := 0 to |a.components|
      invariant components == a.components[..i]
    {
      components := components + [a.components[i]];
    }
    b := Generic(NonEmpty(a.lemmaForm), NonEmpty(a.partOfSpeech), NonEmpty(a.raw), components, map[]);
  }

  /** The entries of a bag whose keys are not in drop, re-folded one by one into a new bag. */
  method KeepEntries(bag: Bag, drop: set<string>) returns (kept: Bag)
    ensures kept == bag - drop
  {
    kept := map[];
    var rest := bag.Keys;
    while rest != {}
      invariant rest <= bag.Keys
      invariant kept.Keys == (bag.Keys - rest) - drop
      invariant forall k :: k in kept ==> kept[k] == bag[k]
      decreases rest
    {
      var key :| key in rest;
      if key !in drop {
        kept := kept[key := bag[key]];
      }
      rest := rest - {key};
    }
    assert kept.Keys == (bag - drop).Keys;
  }

  /** Read every element of a list as a string, in order. */
  method CastStrings(key: string, xs: seq<Value>) returns (r: Result<seq<string>, DecodeError>)
    ensures r == StringsFrom(key, xs, 0, [])
  {
    var acc: seq<string> := [];
    var i := 0;
    while i < |xs|
      invariant i <= |xs|
      invariant StringsFrom(key, xs, i, acc) == StringsFrom(key, xs, 0, [])
    {
      if !xs[i].JString? {
        return Failure(BadElement(key, i));
      }
      acc := acc + [xs[i].s];
      i := i + 1;
    }
    return Success(acc);
  }

  /** Pair a values list with its tags list index by index (the prefix, stem and suffix loops). */
  method ZipTagged(bag: Bag, valuesKey: string, tagsKey: string) returns (r: Result<seq<Tagged>, DecodeError>)
    ensures r == ZipField(bag, valuesKey, tagsKey)
  {
    var values := CastList(bag, valuesKey);
    if values.Failure? {
      return Failure(values.error);
    }
    if values.value.None? {
      return Success([]);
    }
    var vals := values.value.value;
    var tagsCast := CastList(bag, tagsKey);
    if tagsCast.Failure? {
      return Failure(tagsCast.error);
    }
    var tags := tagsCast.value;
    var pairs: seq<Tagged> := [];
    for x := 0 to |vals|
      invariant ZipFrom(valuesKey, tagsKey, vals, tags, x, pairs) == ZipFrom(valuesKey, tagsKey, vals, tags, 0, [])
    {
      if !PassesStringCast(vals[x]) {
        return Failure(BadElement(valuesKey, x));
      }
      if tags.None? {
        return Failure(MissingList(tagsKey));
      }
      if x >= |tags.value| {
        return Failure(IndexOutOfRange(tagsKey, x));
      }
      if !PassesStringCast(tags.value[x]) {
        return Failure(BadElement(tagsKey, x));
      }
      if !vals[x].JString? {
        return Failure(BadElement(valuesKey, x));
      }
      if !tags.value[x].JString? {
        return Failure(BadElement(tagsKey, x));
      }
      pairs := pairs + [Tagged(vals[x].s, tags.value[x].s)];
    }
    return Success(pairs);
  }

  /** Rebuild a decoded record whose leftovers hold "readings" as a Han record. */
  method ToHan(a: MorphoAnalysis) returns (r: Result<MorphoAnalysis, DecodeError>)
    requires Readings in a.extendedProperties
    ensures r == HanOf(a)
  {
    var basic := CopyBasic(a);
    var readings: seq<string>;
    match a.extendedProperties[Readings] {
      case JNull =>
        return Failure(MissingList(Readings));
      case JArray(xs) =>
        var cast := CastStrings(Readings, xs);
        if cast.Failure? {
          return Failure(cast.error);
        }
        readings := cast.value;
      case _ =>
        return Failure(BadType(Readings));
    }
    var bag := KeepEntries(a.extendedProperties, {Readings});
    r := Success(Han(basic.lemmaForm, basic.partOfSpeech, basic.raw, basic.components, bag, readings));
  }

  /** Rebuild a decoded record whose leftovers hold Arabic fields as an Arabic record. */
  method ToArabic(a: MorphoAnalysis) returns (r: Result<MorphoAnalysis, DecodeError>)
    ensures r == ArabicOf(a)
  {
    var bag := a.extendedProperties;
    var basic := CopyBasic(a);
    var prefixLength := CastInt(bag, "prefixLength");
    if prefixLength.Failure? { return Failure(prefixLength.error); }
    var stemLength := CastInt(bag, "stemLength");
    if stemLength.Failure? { return Failure(stemLength.error); }
    var lengths: Option<(int, int)> := None;
    if prefixLength.value.Some? && stemLength.value.Some? {
      lengths := Some((prefixLength.value.value, stemLength.value.value));
    }
    var root := CastString(bag, "root");
    if root.Failure? { return Failure(root.error); }
    var definiteArticle := CastBool(bag, "definiteArticle");
    if definiteArticle.Failure? { return Failure(definiteArticle.error); }
    var strippablePrefix := CastBool(bag, "strippablePrefix");
    if strippablePrefix.Failure? { return Failure(strippablePrefix.error); }
    var prefixes := ZipTagged(bag, "prefixes", "prefixTags");
    if prefixes.Failure? { return Failure(prefixes.error); }
    var stems := ZipTagged(bag, "stems", "stemTags");
    if stems.Failure? { return Failure(stems.error); }
    var suffixes := ZipTagged(bag, "suffixes", "suffixTags");
    if suffixes.Failure? { return Failure(suffixes.error); }
    var kept := KeepEntries(bag, ArabicFields);
    r := Success(Arabic(basic.lemmaForm, basic.partOfSpeech, basic.raw, basic.components, kept,
                        lengths, root.value, definiteArticle.value, strippablePrefix.value,
                        prefixes.value, stems.value, suffixes.value));
  }

  /**
   * What the loop does with one decoded record: keep it when it has no
   * leftovers, upgrade it to Han when they hold "readings", else to Arabic
   * when they hold an Arabic field, else keep it; the variant returned is the
   * one in effect for the next element.
   */
  method UpgradeRecord(a: MorphoAnalysis, v: Variant) returns (r: Result<(MorphoAnalysis, Variant), DecodeError>)
    ensures r == Upgrade(a, v)
  {
    if |a.extendedProperties| == 0 {
      return Success((a, v));
    }
    if Readings in a.extendedProperties {
      var han := ToHan(a);
      if han.Failure? {
        return Failure(han.error);
      }
      return Success((han.value, HanVariant));
    }
    var arabic := AnyArabicFields(a.extendedProperties.Keys);
    if arabic {
      var converted := ToArabic(a);
      if converted.Failure? {
        return Failure(converted.error);
      }
      return Success((converted.value, ArabicVariant));
    }
    return Success((a, v));
  }

  /**
   * The list decoder. An instance made by the public constructor is not
   * bound; binding (createContextual) yields an instance holding the three
   * secondary decoders with the generic one in effect.
   */
  class MorphoAnalysisListDeserializer {
    var cached: bool
    var decoders: Option<Decoders>
    /** The decoder in effect (currentDeserializer); None while unbound. */
    var current: Option<Variant>

    ghost predicate Valid()
      reads this
    {
      cached <==> (decoders.Some? && current.Some?)
    }

    /** The public no-argument constructor: nothing resolved yet. */
    constructor ()
      ensures Valid() && !cached && decoders == None && current == None
    {
      cached := false;
      decoders := None;
      current := None;
    }

    /** The private contextual constructor: the resolved decoders, generic in effect. */
    constructor Contextual(resolved: Decoders)
      ensures Valid() && cached && decoders == Some(resolved) && current == Some(GenericVariant)
    {
      decoders := Some(resolved);
      current := Some(GenericVariant);
      cached := true;
    }

    /** createContextual: a bound instance, this one when it is already bound. */
    method CreateContextual(resolved: Decoders) returns (d: MorphoAnalysisListDeserializer)
      requires Valid()
      ensures d.Valid() && d.cached
      ensures old(cached) ==> d == this
      ensures !old(cached) ==> fresh(d) && d.decoders == Some(resolved) && d.current == Some(GenericVariant)
    {
      if cached {
        return this;
      }
      d := new MorphoAnalysisListDeserializer.Contextual(resolved);
    }

    /**
     * deserialize: `token` is the token the parser is on, `items` the objects
     * of the array up to its end token. The decoder in effect at entry is the
     * one the previous call left, and the one in effect when the call ends
     * (normally or not) stays for the next call.
     */
    method Deserialize(token: JsonToken, items: seq<RawObject>) returns (r: Result<seq<MorphoAnalysis>, DecodeError>)
      requires Valid()
      modifies this`current
      ensures Valid()
      ensures !cached ==> r == Failure(NotContextualized) && current == old(current)
      ensures cached && token != StartArray ==>
        r == Failure(WrongToken(StartArray, token)) && current == old(current)
      ensures cached && token == StartArray ==>
        var outcome := Run(StepOf(decoders.value), old(current).value, items, 0, []);
        r == outcome.result && current == Some(outcome.current)
      ensures cached && old(current) != Some(GenericVariant) ==> current != Some(GenericVariant)
    {
      if !cached {
        return Failure(NotContextualized);
      }
      if token != StartArray {
        return Failure(WrongToken(StartArray, token));
      }
      var ds := decoders.value;
      ghost var start := current.value;
      var result: seq<MorphoAnalysis> := [];
      var i := 0;
      while i < |items|
        invariant i <= |items| && current.Some?
        invariant Run(StepOf(ds), current.value, items, i, result) == Run(StepOf(ds), start, items, 0, [])
        invariant start != GenericVariant ==> current.value != GenericVariant
      {
        var decoded := ds.For(current.value)(items[i]);
        if decoded.Failure? {
          return Failure(decoded.error);
        }
        var upgraded := UpgradeRecord(decoded.value, current.value);
        if upgraded.Failure? {
          return Failure(upgraded.error);
        }
        var analysis := upgraded.value.0;
        if start != GenericVariant {
          StepKeepsNonGeneric(ds, current.value, items[i]);
        }
        current := Some(upgraded.value.1);
        result := result + [analysis];
        i := i + 1;
      }
      r := Success(result);
    }
  }
}
