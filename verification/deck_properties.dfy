/**
 * What `deckSchema.parse` does to a deck document: it succeeds exactly on the decks of `IsDeck`
 * and returns `DeckOutput`; and the consequences for required fields, stacks, block tags, enums,
 * integer fields, absent fields and the `data` attribute of table blocks.
 */
module DeckProperties {
  import opened Json
  import opened Zod
  import opened ZodSchema
  import opened DeckRules
  import opened DeckConformance

  /** `deckSchema.parse` succeeds exactly on the decks of `IsDeck`, returning `DeckOutput`. */
  lemma ParseDeckMeaning(j: Json)
    ensures ParseDeck(j).Success? <==> IsDeck(j)
    ensures ParseDeck(j).Success? ==> ParseDeck(j).value == DeckOutput(j)
  {
    ParseMeaning(DeckSchema, Some(j), []);
    DeckConforms(j);
  }

  // Required fields

  /** A document that is not an object is rejected with one issue at the root. */
  lemma NonObjectRejected(j: Json)
    requires !j.JObject?
    ensures ParseDeck(j) == Failure([Issue([], InvalidType(ObjectType, TypeOf(Some(j))))])
  {
  }

  /**
   * A deck without a string `title` is rejected whatever else it holds, and the first issue
   * reported is at `title`; a missing title reports `undefined` as the received type.
   */
  lemma TitleRequired(m: map<string, Json>)
    requires !("title" in m && m["title"].JString?)
    ensures ParseDeck(JObject(m)).Failure?
    ensures ParseDeck(JObject(m)).error[0] == Issue([Key("title")], InvalidType(StringType, TypeOf(Get(m, "title"))))
  {
    assert DeckSchema.shape[0] == Field("title", ZString);
    assert [] + [Key("title")] == [Key("title")];
    var o := Parse(ZString, Get(m, "title"), [Key("title")]);
    assert o.status == Aborted;
    var r := ParseFields(DeckSchema, m, [], 0);
    assert r.issues == o.issues + ParseFields(DeckSchema, m, [], 1).issues;
  }

  /** A deck whose `slides` is missing or not an array is rejected. */
  lemma SlidesRequired(m: map<string, Json>)
    requires !("slides" in m && m["slides"].JArray?)
    ensures ParseDeck(JObject(m)).Failure?
  {
    ParseDeckMeaning(JObject(m));
  }

  // Slides and stacks

  /** A stack is an array of slides; an array inside a stack is not a slide, so it is rejected. */
  lemma StacksOneLevel(items: seq<Json>)
    ensures Accepts(SlideEntrySchema, Some(JArray(items))) <==> forall s | s in items :: IsSlide(s)
    ensures (exists s | s in items :: s.JArray?) ==> !Accepts(SlideEntrySchema, Some(JArray(items)))
  {
    SlideEntryConforms(JArray(items));
  }

  /** The settings of a deck that holds only `title` and `slides` are its title. */
  lemma TitleOnlySettings(m: map<string, Json>)
    requires m.Keys == {"title", "slides"}
    ensures Restrict(m, DeckKeys - {"slides"}) == map["title" := m["title"]]
  {
    assert Restrict(m, DeckKeys - {"slides"}).Keys == {"title"};
  }

  /** A deck with a title and an empty `slides` array is accepted as it is. */
  lemma SmallestDeck(title: string)
    ensures var deck := JObject(map["title" := JString(title), "slides" := JArray([])]);
      ParseDeck(deck) == Success(deck)
  {
    var m := map["title" := JString(title), "slides" := JArray([])];
    ParseDeckMeaning(JObject(m));
    assert |DeckOutput(JObject(m)).fields["slides"].items| == 0;
    TitleOnlySettings(m);
    assert DeckOutput(JObject(m)).fields == m;
  }

  /** An empty stack and an empty slide object are entries, and they parse to themselves. */
  lemma EmptyEntries()
    ensures IsSlideEntry(JArray([])) && SlideEntryOutput(JArray([])) == JArray([])
    ensures IsSlideEntry(JObject(map[])) && SlideEntryOutput(JObject(map[])) == JObject(map[])
  {
    assert SlideOutput(JObject(map[])).fields == map[];
  }

  /** A deck whose slides are an empty stack and an empty slide object is accepted as it is. */
  lemma EmptyStackAndSlide(title: string)
    ensures var deck := JObject(map["title" := JString(title),
                                    "slides" := JArray([JArray([]), JObject(map[])])]);
      ParseDeck(deck) == Success(deck)
  {
    var slides := [JArray([]), JObject(map[])];
    var m := map["title" := JString(title), "slides" := JArray(slides)];
    EmptyEntries();
    assert forall e | e in slides :: IsSlideEntry(e);
    ParseDeckMeaning(JObject(m));
    var out := seq(|slides|, k requires 0 <= k < |slides| => SlideEntryOutput(slides[k]));
    assert out == slides;
    TitleOnlySettings(m);
    assert DeckOutput(JObject(m)).fields == m;
  }

  /** `html`, `markdown` and `blocks` may all appear on one slide. */
  lemma SlideContentNotExclusive(html: string, markdown: string, blocks: seq<Json>)
    requires forall b | b in blocks :: Accepts(BlockSchema, Some(b))
    ensures Accepts(SlideSchema, Some(JObject(map["html" := JString(html), "markdown" := JString(markdown),
                                                  "blocks" := JArray(blocks)])))
  {
    var m := map["html" := JString(html), "markdown" := JString(markdown), "blocks" := JArray(blocks)];
    forall b | b in blocks ensures IsBlock(b) {
      BlockConforms(b);
    }
    assert IsSlideAttributes(m);
    SlideConforms(JObject(m));
  }

  // Blocks

  /** A block is accepted only with a `type` that is one of the five tags. */
  lemma BlockTags(j: Json)
    ensures Accepts(BlockSchema, Some(j)) ==>
      j.JObject? && "type" in j.fields && j.fields["type"].JString? && j.fields["type"].s in BlockTypes
  {
    BlockConforms(j);
  }

  /** Each of the five tags has an accepted block. */
  lemma EveryTagAccepted(k: nat)
    requires k < |BlockTypes|
    ensures Accepts(BlockSchema, Some(JObject(map["type" := JString(BlockTypes[k]), "value" := JString("")])))
  {
    var m := map["type" := JString(BlockTypes[k]), "value" := JString("")];
    assert IsBaseBlock(m);
    assert IsVariant(m) by {
      if k == 0 {
        assert IsTextBlock(m);
      } else if k == 1 {
        assert IsImageBlock(m);
      } else if k == 2 {
        assert IsIframeBlock(m);
      } else if k == 3 {
        assert IsCodeBlock(m);
      } else {
        assert IsTableBlock(m);
      }
    }
    BlockConforms(JObject(m));
  }

  /** Every option of the variant union starts with its `type` literal. */
  lemma VariantTagFirst(k: nat)
    requires k < |VariantSchema.options|
    ensures VariantSchema.options[k].ZObject? && |VariantSchema.options[k].shape| > 0
    ensures VariantSchema.options[k].shape[0] == Field("type", ZLiteral(BlockTypes[k]))
  {
    if k == 0 {} else if k == 1 {} else if k == 2 {} else if k == 3 {} else {}
  }

  /**
   * A block with valid shared attributes but without one of the five tags fails with a single
   * invalid_union issue at the block's own path, carrying the issues of all five variants.
   */
  lemma UnknownTagReported(m: map<string, Json>, path: Path)
    requires IsBaseBlock(m)
    requires !("type" in m && m["type"].JString? && m["type"].s in BlockTypes)
    ensures var o := Parse(BlockSchema, Some(JObject(m)), path);
      o.status == Aborted && |o.issues| == 1 && o.issues[0].path == path
      && o.issues[0].code.InvalidUnion? && |o.issues[0].code.unionErrors| == 5
  {
    var v := Some(JObject(m));
    Conformance.BaseBlockConforms(m);
    ParseMeaning(BaseBlockSchema, v, path);
    UnknownTagVariants(m, path);
  }

  /** Without one of the five tags every variant aborts, so the union reports one issue. */
  lemma UnknownTagVariants(m: map<string, Json>, path: Path)
    requires !("type" in m && m["type"].JString? && m["type"].s in BlockTypes)
    ensures var o := Parse(VariantSchema, Some(JObject(m)), path);
      o.status == Aborted && |o.issues| == 1 && o.issues[0].path == path
      && o.issues[0].code.InvalidUnion? && |o.issues[0].code.unionErrors| == 5
  {
    var v := Some(JObject(m));
    forall k | 0 <= k < |VariantSchema.options|
      ensures Parse(VariantSchema.options[k], v, path).status == Aborted
    {
      VariantTagFirst(k);
      FieldsAbort(VariantSchema.options[k], m, path, 0, 0);
    }
    UnionAllAbort(VariantSchema, v, path, 0, []);
  }

  /** A `blocks` array holding a block with valid shared attributes and no known tag aborts. */
  lemma UnknownTagInBlocks(items: seq<Json>, i: nat, path: Path)
    requires i < |items| && items[i].JObject? && IsBaseBlock(items[i].fields)
    requires var b := items[i].fields; !("type" in b && b["type"].JString? && b["type"].s in BlockTypes)
    ensures Parse(ZOptional(ZArray(BlockSchema)), Some(JArray(items)), path).status == Aborted
  {
    UnknownTagReported(items[i].fields, path + [Index(i)]);
    ItemsAbort(ZArray(BlockSchema), items, path, 0, i);
  }

  /**
   * Inside a slide, the block's abort aborts the slide, and the slide-or-stack union of a `slides`
   * entry then reports one invalid_union at the entry's path, with one issue list per option.
   */
  lemma UnknownTagInEntry(sm: map<string, Json>, i: nat, path: Path)
    requires "blocks" in sm && sm["blocks"].JArray? && i < |sm["blocks"].items|
    requires sm["blocks"].items[i].JObject?
    requires IsBaseBlock(sm["blocks"].items[i].fields)
    requires var b := sm["blocks"].items[i].fields;
      !("type" in b && b["type"].JString? && b["type"].s in BlockTypes)
    ensures var o := Parse(SlideEntrySchema, Some(JObject(sm)), path);
      o.status == Aborted && |o.issues| == 1 && o.issues[0].path == path
      && o.issues[0].code.InvalidUnion? && |o.issues[0].code.unionErrors| == 2
  {
    var v := Some(JObject(sm));
    UnknownTagInSlide(sm, i, path);
    assert Parse(SlideEntrySchema.options[1], v, path).status == Aborted;
    UnionAllAbort(SlideEntrySchema, v, path, 0, []);
  }

  /** The slide itself aborts. */
  lemma UnknownTagInSlide(sm: map<string, Json>, i: nat, path: Path)
    requires "blocks" in sm && sm["blocks"].JArray? && i < |sm["blocks"].items|
    requires sm["blocks"].items[i].JObject?
    requires IsBaseBlock(sm["blocks"].items[i].fields)
    requires var b := sm["blocks"].items[i].fields;
      !("type" in b && b["type"].JString? && b["type"].s in BlockTypes)
    ensures Parse(SlideSchema, Some(JObject(sm)), path).status == Aborted
  {
    UnknownTagInBlocks(sm["blocks"].items, i, path + [Key("blocks")]);
    assert SlideSchema.shape[7] == Field("blocks", ZOptional(ZArray(BlockSchema)));
    FieldsAbort(SlideSchema, sm, path, 0, 7);
  }

  /**
   * A deck with such a block in its `k`-th slide fails, and its issues hold an invalid_union at
   * `slides[k]`, the path of the entry rather than of the block.
   */
  lemma UnknownTagInDeck(m: map<string, Json>, k: nat, i: nat)
    requires "slides" in m && m["slides"].JArray? && k < |m["slides"].items|
    requires m["slides"].items[k].JObject?
    requires var sm := m["slides"].items[k].fields;
      "blocks" in sm && sm["blocks"].JArray? && i < |sm["blocks"].items|
      && sm["blocks"].items[i].JObject? && IsBaseBlock(sm["blocks"].items[i].fields)
      && var b := sm["blocks"].items[i].fields;
         !("type" in b && b["type"].JString? && b["type"].s in BlockTypes)
    ensures ParseDeck(JObject(m)).Failure?
    ensures exists e | e in ParseDeck(JObject(m)).error ::
      e.path == [Key("slides"), Index(k)] && e.code.InvalidUnion?
  {
    var entries := m["slides"].items;
    var path := [Key("slides"), Index(k)];
    UnknownTagInEntry(entries[k].fields, i, path);
    assert Some(entries[k]) == Some(JObject(entries[k].fields));
    EntryIssuesInDeck(m, k);
    var e := Parse(SlideEntrySchema, Some(entries[k]), path).issues[0];
    assert e in Parse(DeckSchema, Some(JObject(m)), []).issues;
  }

  /** The deck's parse reports every issue of its `k`-th `slides` entry. */
  lemma EntryIssuesInDeck(m: map<string, Json>, k: nat)
    requires "slides" in m && m["slides"].JArray? && k < |m["slides"].items|
    ensures forall e | e in Parse(SlideEntrySchema, Some(m["slides"].items[k]), [Key("slides"), Index(k)]).issues ::
      e in Parse(DeckSchema, Some(JObject(m)), []).issues
  {
    var entries := m["slides"].items;
    var slidesPath: Path := [] + [Key("slides")];
    assert slidesPath + [Index(k)] == [Key("slides"), Index(k)];
    ItemsIssues(ZArray(SlideEntrySchema), entries, slidesPath, 0, k);
    assert Parse(SlidesSchema, Get(m, "slides"), slidesPath).issues
        == ParseItems(ZArray(SlideEntrySchema), entries, slidesPath, 0).issues;
    assert DeckSchema.shape[13] == Field("slides", SlidesSchema);
    FieldsIssues(DeckSchema, m, [], 0, 13);
  }

  /** Text, image, iframe and code blocks need a string `value`. */
  lemma ValueRequired(m: map<string, Json>, k: nat)
    requires k < 4 && HasTag(m, BlockTypes[k]) && !("value" in m && m["value"].JString?)
    ensures !Accepts(BlockSchema, Some(JObject(m)))
  {
    BlockConforms(JObject(m));
  }

  /** A table block needs nothing besides its tag. */
  lemma TableNeedsOnlyTag()
    ensures Accepts(BlockSchema, Some(JObject(map["type" := JString("table")])))
  {
    var m := map["type" := JString("table")];
    assert IsBaseBlock(m) && IsTableBlock(m);
    BlockConforms(JObject(m));
  }

  /**
   * A table block with `data` is never accepted: the shared attributes want an object there, the
   * table variant an array of arrays.
   */
  lemma TableDataRejected(m: map<string, Json>)
    requires HasTag(m, "table") && "data" in m
    ensures !Accepts(BlockSchema, Some(JObject(m)))
  {
    BlockConforms(JObject(m));
  }

  // Closed enums and integer fields: changing one field of an accepted document

  /** The enum fields of the deck, each with its list of strings. */
  predicate DeckEnumField(key: string, allowed: seq<string>) {
    (key == "visibility" && allowed == Visibilities)
    || (key == "theme-color" && allowed == ThemeColors)
    || (key == "theme-font" && allowed == ThemeFonts)
    || (key == "transition" && allowed == Transitions)
  }

  lemma DeckEnumRule(m: map<string, Json>, key: string, allowed: seq<string>, v: string)
    requires IsDeck(JObject(m)) && DeckEnumField(key, allowed)
    ensures IsDeck(JObject(m[key := JString(v)])) <==> v in allowed
  {
    var n := m[key := JString(v)];
    SettingsEnumRule(m, key, allowed, v);
    assert n["slides"] == m["slides"];
  }

  /** The enum rule on the settings alone. */
  lemma SettingsEnumRule(m: map<string, Json>, key: string, allowed: seq<string>, v: string)
    requires IsDeckSettings(m) && DeckEnumField(key, allowed)
    ensures IsDeckSettings(m[key := JString(v)]) <==> v in allowed
  {
    if key == "visibility" {
    } else if key == "theme-color" {
    } else if key == "theme-font" {
    } else {
    }
  }

  /** Each enum field of the deck takes exactly the strings of its list. */
  lemma DeckEnumsClosed(m: map<string, Json>, key: string, allowed: seq<string>, v: string)
    requires ParseDeck(JObject(m)).Success? && DeckEnumField(key, allowed)
    ensures ParseDeck(JObject(m[key := JString(v)])).Success? <==> v in allowed
  {
    ParseDeckMeaning(JObject(m));
    ParseDeckMeaning(JObject(m[key := JString(v)]));
    DeckEnumRule(m, key, allowed, v);
  }

  lemma DeckIntegerRule(m: map<string, Json>, key: string, x: real)
    requires IsDeck(JObject(m))
    requires key == "width" || key == "height" || key == "auto-slide-interval"
    ensures IsDeck(JObject(m[key := JNumber(x)])) <==> IsInteger(x)
  {
    if key == "width" {
    } else if key == "height" {
    } else {
    }
  }

  /** The deck's `width`, `height` and `auto-slide-interval` take integers only. */
  lemma DeckIntegerFields(m: map<string, Json>, key: string, x: real)
    requires ParseDeck(JObject(m)).Success?
    requires key == "width" || key == "height" || key == "auto-slide-interval"
    ensures ParseDeck(JObject(m[key := JNumber(x)])).Success? <==> IsInteger(x)
  {
    ParseDeckMeaning(JObject(m));
    ParseDeckMeaning(JObject(m[key := JNumber(x)]));
    DeckIntegerRule(m, key, x);
  }

  /** `background-size` of a slide takes exactly its two strings. */
  lemma BackgroundSizeClosed(m: map<string, Json>, v: string)
    requires Accepts(SlideSchema, Some(JObject(m)))
    ensures Accepts(SlideSchema, Some(JObject(m["background-size" := JString(v)]))) <==> v in BackgroundSizes
  {
    SlideConforms(JObject(m));
    SlideConforms(JObject(m["background-size" := JString(v)]));
    assert IsSlide(JObject(m["background-size" := JString(v)])) <==> v in BackgroundSizes;
  }

  /** The enum fields shared by all blocks, each with its list of strings. */
  predicate SharedEnumField(key: string, allowed: seq<string>) {
    (key == "animation-type" && allowed == AnimationTypes)
    || (key == "animation-trigger" && allowed == AnimationTriggers)
  }

  /** The enum fields of the block variants: the variant's tag, the key and its list of strings. */
  predicate VariantEnumField(tag: string, key: string, allowed: seq<string>) {
    (tag == "text" && key == "format" && allowed == TextFormats)
    || (tag == "text" && key == "align" && allowed == TextAligns)
    || (tag == "code" && key == "theme" && allowed == CodeThemes)
  }

  /** Every key some block variant declares. */
  const VariantOnlyKeys: set<string> := {
    "type", "value", "format", "align", "padding", "color", "font-size", "language", "word-wrap",
    "line-numbers", "theme", "data", "html", "text-color", "border-width", "border-color"}

  /** Changing a key no variant declares leaves the variant rules as they were. */
  lemma VariantUnchanged(m: map<string, Json>, key: string, x: Json)
    requires key !in VariantOnlyKeys
    ensures IsVariant(m[key := x]) <==> IsVariant(m)
  {
    var m' := m[key := x];
    assert IsTextBlock(m') <==> IsTextBlock(m);
    assert IsCodeBlock(m') <==> IsCodeBlock(m);
    assert IsTableBlock(m') <==> IsTableBlock(m);
  }

  lemma SharedEnumRule(m: map<string, Json>, key: string, allowed: seq<string>, v: string)
    requires IsBlock(JObject(m)) && SharedEnumField(key, allowed)
    ensures IsBlock(JObject(m[key := JString(v)])) <==> v in allowed
  {
    VariantUnchanged(m, key, JString(v));
  }

  lemma VariantEnumRule(m: map<string, Json>, tag: string, key: string, allowed: seq<string>, v: string)
    requires IsBlock(JObject(m)) && HasTag(m, tag) && VariantEnumField(tag, key, allowed)
    ensures IsBlock(JObject(m[key := JString(v)])) <==> v in allowed
  {
    var m' := m[key := JString(v)];
    assert IsBaseBlock(m') <==> IsBaseBlock(m);
    if tag == "text" {
      assert IsVariant(m') <==> IsTextBlock(m');
    } else {
      assert IsVariant(m') <==> IsCodeBlock(m');
    }
  }

  /** Each enum field of a block takes exactly the strings of its list. */
  lemma BlockEnumsClosed(m: map<string, Json>, tag: string, key: string, allowed: seq<string>, v: string)
    requires Accepts(BlockSchema, Some(JObject(m)))
    requires SharedEnumField(key, allowed) || (HasTag(m, tag) && VariantEnumField(tag, key, allowed))
    ensures Accepts(BlockSchema, Some(JObject(m[key := JString(v)]))) <==> v in allowed
  {
    BlockConforms(JObject(m));
    BlockConforms(JObject(m[key := JString(v)]));
    if SharedEnumField(key, allowed) {
      SharedEnumRule(m, key, allowed, v);
    } else {
      VariantEnumRule(m, tag, key, allowed, v);
    }
  }

  /** The lists behind the ten enum fields have 3, 2, 12, 5, 2, 16, 8, 3, 5 and 4 strings. */
  lemma EnumSizes()
    ensures |Visibilities| == 3 && |ThemeColors| == 2 && |ThemeFonts| == 12 && |Transitions| == 5
    ensures |BackgroundSizes| == 2 && |CodeThemes| == 16 && |AnimationTypes| == 8
    ensures |AnimationTriggers| == 3 && |TextFormats| == 5 && |TextAligns| == 4
  {
  }

  /** The integer fields of the block variants: the variant's tag and the key. */
  predicate VariantIntegerField(tag: string, key: string) {
    (tag == "text" && key == "padding")
    || (tag == "table" && (key == "padding" || key == "border-width"))
  }

  lemma SharedIntegerRule(m: map<string, Json>, key: string, x: real)
    requires IsBlock(JObject(m))
    requires key == "x" || key == "y" || key == "width" || key == "height"
    ensures IsBlock(JObject(m[key := JNumber(x)])) <==> IsInteger(x)
  {
    VariantUnchanged(m, key, JNumber(x));
  }

  lemma VariantIntegerRule(m: map<string, Json>, tag: string, key: string, x: real)
    requires IsBlock(JObject(m)) && HasTag(m, tag) && VariantIntegerField(tag, key)
    ensures IsBlock(JObject(m[key := JNumber(x)])) <==> IsInteger(x)
  {
    var m' := m[key := JNumber(x)];
    assert IsBaseBlock(m') <==> IsBaseBlock(m);
    if tag == "text" {
      assert IsVariant(m') <==> IsTextBlock(m');
    } else {
      assert IsVariant(m') <==> IsTableBlock(m');
    }
  }

  /**
   * A block's `x`, `y`, `width` and `height`, and the `padding` and `border-width` of its
   * variant, take integers only.
   */
  lemma BlockIntegerFields(m: map<string, Json>, tag: string, key: string, x: real)
    requires Accepts(BlockSchema, Some(JObject(m)))
    requires key == "x" || key == "y" || key == "width" || key == "height"
             || (HasTag(m, tag) && VariantIntegerField(tag, key))
    ensures Accepts(BlockSchema, Some(JObject(m[key := JNumber(x)]))) <==> IsInteger(x)
  {
    BlockConforms(JObject(m));
    BlockConforms(JObject(m[key := JNumber(x)]));
    if key == "x" || key == "y" || key == "width" || key == "height" {
      SharedIntegerRule(m, key, x);
    } else {
      VariantIntegerRule(m, tag, key, x);
    }
  }

  lemma AnimationTimingRule(m: map<string, Json>, key: string, x: real)
    requires IsBlock(JObject(m))
    requires key == "animation-duration" || key == "animation-delay"
    ensures IsBlock(JObject(m[key := JNumber(x)]))
  {
    VariantUnchanged(m, key, JNumber(x));
  }

  /** `animation-duration` and `animation-delay` take any number, integral or not. */
  lemma AnimationTimingAnyNumber(m: map<string, Json>, key: string, x: real)
    requires Accepts(BlockSchema, Some(JObject(m)))
    requires key == "animation-duration" || key == "animation-delay"
    ensures Accepts(BlockSchema, Some(JObject(m[key := JNumber(x)])))
  {
    BlockConforms(JObject(m));
    BlockConforms(JObject(m[key := JNumber(x)]));
    AnimationTimingRule(m, key, x);
  }

  lemma LineNumbersRule(m: map<string, Json>, w: Json)
    requires IsBlock(JObject(m)) && HasTag(m, "code")
    ensures IsBlock(JObject(m["line-numbers" := w])) <==> w.JBool? || w.JString?
  {
    var m' := m["line-numbers" := w];
    assert IsBaseBlock(m') <==> IsBaseBlock(m);
    assert IsVariant(m') <==> IsCodeBlock(m');
  }

  /** The `line-numbers` of a code block is a boolean or a string, nothing else. */
  lemma LineNumbersBoolOrString(m: map<string, Json>, w: Json)
    requires Accepts(BlockSchema, Some(JObject(m))) && HasTag(m, "code")
    ensures Accepts(BlockSchema, Some(JObject(m["line-numbers" := w]))) <==> w.JBool? || w.JString?
  {
    BlockConforms(JObject(m));
    BlockConforms(JObject(m["line-numbers" := w]));
    LineNumbersRule(m, w);
  }
}
