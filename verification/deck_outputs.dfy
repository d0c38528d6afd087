/**
 * The parsed deck: `deckSchema.parse` adds no key it was not given (no defaults), and parsing
 * its own output again changes nothing.
 */
module DeckOutputs {
  import opened Json
  import opened Zod
  import opened ZodSchema
  import opened DeckRules
  import opened DeckProperties

  /** `m` and `n` hold the same entries (or the same absence) under every key of `keys`. */
  predicate AgreeOn(m: map<string, Json>, n: map<string, Json>, keys: set<string>) {
    forall k | k in keys :: Get(m, k) == Get(n, k)
  }

  // The rules read only the keys their schema declares

  lemma BaseBlockLocal(m: map<string, Json>, n: map<string, Json>)
    requires AgreeOn(m, n, BaseBlockKeys)
    ensures IsBaseBlock(m) <==> IsBaseBlock(n)
  {
    assert Get(m, "x") == Get(n, "x") && Get(m, "y") == Get(n, "y");
    assert Get(m, "width") == Get(n, "width") && Get(m, "height") == Get(n, "height");
    assert Get(m, "class") == Get(n, "class") && Get(m, "data") == Get(n, "data");
    assert Get(m, "animation-type") == Get(n, "animation-type");
    assert Get(m, "animation-trigger") == Get(n, "animation-trigger");
    assert Get(m, "animation-duration") == Get(n, "animation-duration");
    assert Get(m, "animation-delay") == Get(n, "animation-delay");
  }

  lemma VariantLocal(m: map<string, Json>, n: map<string, Json>)
    requires IsVariant(m) && AgreeOn(m, n, VariantKeys(m["type"].s))
    ensures IsVariant(n) && Get(n, "type") == Get(m, "type")
  {
    var tag := m["type"].s;
    assert "type" in VariantKeys(tag);
    assert Get(m, "type") == Get(n, "type");
    assert "value" in VariantKeys(tag) ==> Get(m, "value") == Get(n, "value");
    if IsTextBlock(m) {
      assert Get(m, "format") == Get(n, "format") && Get(m, "align") == Get(n, "align");
      assert Get(m, "padding") == Get(n, "padding") && Get(m, "color") == Get(n, "color");
      assert Get(m, "font-size") == Get(n, "font-size");
      assert IsTextBlock(n);
    } else if IsImageBlock(m) {
      assert IsImageBlock(n);
    } else if IsIframeBlock(m) {
      assert IsIframeBlock(n);
    } else if IsCodeBlock(m) {
      assert Get(m, "language") == Get(n, "language") && Get(m, "word-wrap") == Get(n, "word-wrap");
      assert Get(m, "line-numbers") == Get(n, "line-numbers") && Get(m, "theme") == Get(n, "theme");
      assert IsCodeBlock(n);
    } else {
      assert Get(m, "data") == Get(n, "data") && Get(m, "html") == Get(n, "html");
      assert Get(m, "padding") == Get(n, "padding") && Get(m, "text-color") == Get(n, "text-color");
      assert Get(m, "border-width") == Get(n, "border-width");
      assert Get(m, "border-color") == Get(n, "border-color");
      assert IsTableBlock(n);
    }
  }

  lemma SlideAttributesLocal(m: map<string, Json>, n: map<string, Json>)
    requires AgreeOn(m, n, SlideKeys - {"blocks"})
    ensures IsSlideAttributes(m) <==> IsSlideAttributes(n)
  {
    assert Get(m, "id") == Get(n, "id") && Get(m, "background-color") == Get(n, "background-color");
    assert Get(m, "background-image") == Get(n, "background-image");
    assert Get(m, "background-size") == Get(n, "background-size");
    assert Get(m, "notes") == Get(n, "notes") && Get(m, "html") == Get(n, "html");
    assert Get(m, "markdown") == Get(n, "markdown");
  }

  lemma DeckSettingsLocal(m: map<string, Json>, n: map<string, Json>)
    requires AgreeOn(m, n, DeckKeys - {"slides"})
    ensures IsDeckSettings(m) <==> IsDeckSettings(n)
  {
    assert Get(m, "title") == Get(n, "title") && Get(m, "description") == Get(n, "description");
    assert Get(m, "width") == Get(n, "width") && Get(m, "height") == Get(n, "height");
    assert Get(m, "visibility") == Get(n, "visibility");
    assert Get(m, "auto-slide-interval") == Get(n, "auto-slide-interval");
    assert Get(m, "slide-number") == Get(n, "slide-number") && Get(m, "loop") == Get(n, "loop");
    assert Get(m, "css") == Get(n, "css") && Get(m, "theme-id") == Get(n, "theme-id");
    assert Get(m, "theme-color") == Get(n, "theme-color") && Get(m, "theme-font") == Get(n, "theme-font");
    assert Get(m, "transition") == Get(n, "transition");
  }

  // Parsing the output again changes nothing

  lemma RestrictTwice(m: map<string, Json>, keys: set<string>)
    ensures Restrict(Restrict(m, keys), keys) == Restrict(m, keys)
    ensures AgreeOn(m, Restrict(m, keys), keys)
  {
    assert Restrict(Restrict(m, keys), keys).Keys == Restrict(m, keys).Keys;
  }

  /** A parsed block is a block, and parsing it again returns it unchanged. */
  lemma BlockOutputStable(j: Json)
    requires IsBlock(j)
    ensures IsBlock(BlockOutput(j)) && BlockOutput(BlockOutput(j)) == BlockOutput(j)
  {
    var m := j.fields;
    var keys := BaseBlockKeys + VariantKeys(m["type"].s);
    var n := Restrict(m, keys);
    RestrictTwice(m, keys);
    assert AgreeOn(m, n, BaseBlockKeys);
    assert AgreeOn(m, n, VariantKeys(m["type"].s));
    BaseBlockLocal(m, n);
    VariantLocal(m, n);
    assert n["type"] == m["type"];
  }

  /** The blocks of a parsed slide are parsed blocks, which parse to themselves. */
  lemma BlocksStable(blocks: seq<Json>)
    requires forall b | b in blocks :: IsBlock(b)
    ensures var out := seq(|blocks|, k requires 0 <= k < |blocks| => BlockOutput(blocks[k]));
      (forall b | b in out :: IsBlock(b))
      && seq(|out|, k requires 0 <= k < |out| => BlockOutput(out[k])) == out
  {
    var out := seq(|blocks|, k requires 0 <= k < |blocks| => BlockOutput(blocks[k]));
    forall k | 0 <= k < |blocks| ensures IsBlock(out[k]) && BlockOutput(out[k]) == out[k] {
      BlockOutputStable(blocks[k]);
    }
  }

  /** A parsed slide is a slide, and parsing it again returns it unchanged. */
  lemma SlideOutputStable(j: Json)
    requires IsSlide(j)
    ensures IsSlide(SlideOutput(j)) && SlideOutput(SlideOutput(j)) == SlideOutput(j)
  {
    var m := j.fields;
    var attributes := SlideKeys - {"blocks"};
    var kept := Restrict(m, attributes);
    var n := SlideOutput(j).fields;
    assert AgreeOn(m, n, attributes);
    SlideAttributesLocal(m, n);
    assert Restrict(n, attributes) == kept;
    if "blocks" in m {
      var blocks := m["blocks"].items;
      BlocksStable(blocks);
      var out := JArray(seq(|blocks|, k requires 0 <= k < |blocks| => BlockOutput(blocks[k])));
      assert n == kept["blocks" := out];
      assert SlideOutput(SlideOutput(j)).fields == Restrict(n, attributes)["blocks" := out];
    } else {
      assert n == kept;
    }
  }

  /** The slides of a stack parse to slides, which parse to themselves. */
  lemma SlidesStable(slides: seq<Json>)
    requires forall s | s in slides :: IsSlide(s)
    ensures var out := seq(|slides|, k requires 0 <= k < |slides| => SlideOutput(slides[k]));
      (forall s | s in out :: IsSlide(s))
      && seq(|out|, k requires 0 <= k < |out| => SlideOutput(out[k])) == out
  {
    var out := seq(|slides|, k requires 0 <= k < |slides| => SlideOutput(slides[k]));
    forall k | 0 <= k < |slides| ensures IsSlide(out[k]) && SlideOutput(out[k]) == out[k] {
      SlideOutputStable(slides[k]);
    }
  }

  /** A parsed `slides` entry is an entry, and parsing it again returns it unchanged. */
  lemma SlideEntryOutputStable(j: Json)
    requires IsSlideEntry(j)
    ensures IsSlideEntry(SlideEntryOutput(j)) && SlideEntryOutput(SlideEntryOutput(j)) == SlideEntryOutput(j)
  {
    if j.JArray? {
      SlidesStable(j.items);
    } else {
      SlideOutputStable(j);
    }
  }

  /** The entries of a parsed deck parse to themselves. */
  lemma EntriesStable(entries: seq<Json>)
    requires forall e | e in entries :: IsSlideEntry(e)
    ensures var out := seq(|entries|, k requires 0 <= k < |entries| => SlideEntryOutput(entries[k]));
      (forall e | e in out :: IsSlideEntry(e))
      && seq(|out|, k requires 0 <= k < |out| => SlideEntryOutput(out[k])) == out
  {
    var out := seq(|entries|, k requires 0 <= k < |entries| => SlideEntryOutput(entries[k]));
    forall k | 0 <= k < |entries| ensures IsSlideEntry(out[k]) && SlideEntryOutput(out[k]) == out[k] {
      SlideEntryOutputStable(entries[k]);
    }
  }

  /** A parsed deck is a deck, and parsing it again returns it unchanged. */
  lemma DeckOutputStable(j: Json)
    requires IsDeck(j)
    ensures IsDeck(DeckOutput(j)) && DeckOutput(DeckOutput(j)) == DeckOutput(j)
  {
    var m := j.fields;
    var settings := DeckKeys - {"slides"};
    var kept := Restrict(m, settings);
    var n := DeckOutput(j).fields;
    var entries := m["slides"].items;
    var out := JArray(seq(|entries|, k requires 0 <= k < |entries| => SlideEntryOutput(entries[k])));
    assert n == kept["slides" := out];
    assert AgreeOn(m, n, settings);
    DeckSettingsLocal(m, n);
    EntriesStable(entries);
    assert Restrict(n, settings) == kept;
    assert DeckOutput(DeckOutput(j)).fields == Restrict(n, settings)["slides" := out];
  }

  /** Parsing a parsed deck succeeds and returns the same deck: `deckSchema.parse` is idempotent. */
  lemma ParseDeckIdempotent(j: Json)
    requires ParseDeck(j).Success?
    ensures ParseDeck(ParseDeck(j).value) == ParseDeck(j)
  {
    ParseDeckMeaning(j);
    DeckOutputStable(j);
    ParseDeckMeaning(DeckOutput(j));
  }

  /**
   * No defaults: the parsed deck has exactly the declared keys the document has, with the same
   * values for all but `slides`; an optional setting left out stays out.
   */
  lemma NoDefaults(j: Json)
    requires ParseDeck(j).Success?
    ensures j.JObject? && ParseDeck(j).value.JObject?
    ensures forall k | k in DeckKeys :: k in ParseDeck(j).value.fields <==> k in j.fields
    ensures forall k | k in ParseDeck(j).value.fields :: k in DeckKeys && k in j.fields
    ensures forall k | k in ParseDeck(j).value.fields && k != "slides" :: ParseDeck(j).value.fields[k] == j.fields[k]
  {
    ParseDeckMeaning(j);
  }

  /** No defaults inside a slide either: its output has no key the slide lacked. */
  lemma NoDefaultsInSlide(slide: Json)
    requires Accepts(SlideSchema, Some(slide))
    ensures slide.JObject?
    ensures var out := Strip(SlideSchema, Some(slide));
      out.Some? && out.value.JObject? && out.value.fields.Keys <= slide.fields.Keys
  {
    DeckConformance.SlideConforms(slide);
  }

  /** Nor inside a block: its output has no key the block lacked. */
  lemma NoDefaultsInBlock(block: Json)
    requires Accepts(BlockSchema, Some(block))
    ensures block.JObject?
    ensures var out := Strip(BlockSchema, Some(block));
      out.Some? && out.value.JObject? && out.value.fields.Keys <= block.fields.Keys
  {
    DeckConformance.BlockConforms(block);
  }
}
