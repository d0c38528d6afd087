/**
 * The deck schema, run through the Zod model, accepts exactly the documents `DeckRules` describes
 * and returns exactly their `DeckRules` outputs: blocks (an intersection with a five-way union),
 * slides, slide entries (a union of a slide and a stack) and the deck.
 */
module DeckConformance {
  import opened Json
  import opened Zod
  import opened ZodSchema
  import opened DeckRules
  import opened Conformance

  // Blocks

  /** The five variants carry five different `type` tags, so at most one of them holds. */
  lemma VariantsExclusive(m: map<string, Json>)
    ensures IsTextBlock(m) ==> !IsImageBlock(m) && !IsIframeBlock(m) && !IsCodeBlock(m) && !IsTableBlock(m)
    ensures IsImageBlock(m) ==> !IsIframeBlock(m) && !IsCodeBlock(m) && !IsTableBlock(m)
    ensures IsIframeBlock(m) ==> !IsCodeBlock(m) && !IsTableBlock(m)
    ensures IsCodeBlock(m) ==> !IsTableBlock(m)
  {
  }

  /** Option `k` of the variant union accepts only blocks of variant `k`, tagged `BlockTypes[k]`. */
  lemma VariantOption(m: map<string, Json>, k: nat)
    requires k < |VariantSchema.options|
    ensures Accepts(VariantSchema.options[k], Some(JObject(m))) ==> IsVariant(m) && HasTag(m, BlockTypes[k])
  {
    if Accepts(VariantSchema.options[k], Some(JObject(m))) {
      if k == 0 {
        TextBlockSound(m);
      } else if k == 1 {
        ImageBlockSound(m);
      } else if k == 2 {
        IframeBlockSound(m);
      } else if k == 3 {
        CodeBlockSound(m);
      } else {
        TableBlockSound(m);
      }
    }
  }

  /** Each variant rule is accepted by its option of the union. */
  lemma VariantComplete(m: map<string, Json>)
    requires IsVariant(m)
    ensures Accepts(VariantSchema, Some(JObject(m)))
  {
    var v := Some(JObject(m));
    var options := VariantSchema.options;
    if IsTextBlock(m) {
      TextBlockComplete(m);
      assert Accepts(options[0], v);
    } else if IsImageBlock(m) {
      ImageBlockComplete(m);
      assert Accepts(options[1], v);
    } else if IsIframeBlock(m) {
      IframeBlockComplete(m);
      assert Accepts(options[2], v);
    } else if IsCodeBlock(m) {
      CodeBlockComplete(m);
      assert Accepts(options[3], v);
    } else {
      TableBlockComplete(m);
      assert Accepts(options[4], v);
    }
  }

  /** The variant union accepts an object exactly when one of the five variant rules holds. */
  lemma VariantAccepts(m: map<string, Json>)
    ensures Accepts(VariantSchema, Some(JObject(m))) <==> IsVariant(m)
  {
    var v := Some(JObject(m));
    var options := VariantSchema.options;
    if Accepts(VariantSchema, v) {
      var k :| 0 <= k < |options| && Accepts(options[k], v);
      VariantOption(m, k);
    }
    if IsVariant(m) {
      VariantComplete(m);
    }
  }

  /** The options of the variant union before option `k` reject an object tagged `BlockTypes[k]`. */
  lemma EarlierVariantsReject(m: map<string, Json>, k: nat)
    requires k < |BlockTypes| && HasTag(m, BlockTypes[k])
    ensures forall j | 0 <= j < k :: !Accepts(VariantSchema.options[j], Some(JObject(m)))
  {
    forall j | 0 <= j < k ensures !Accepts(VariantSchema.options[j], Some(JObject(m))) {
      VariantOption(m, j);
    }
  }

  /** The union's output for an object of variant `k` is option `k`'s output. */
  lemma VariantStripAt(m: map<string, Json>, k: nat)
    requires k < |BlockTypes| && HasTag(m, BlockTypes[k])
    requires Accepts(VariantSchema.options[k], Some(JObject(m)))
    ensures Strip(VariantSchema, Some(JObject(m))) == Strip(VariantSchema.options[k], Some(JObject(m)))
  {
    EarlierVariantsReject(m, k);
    StripUnionAt(VariantSchema, Some(JObject(m)), 0, k);
  }

  /** The union's output for a variant is the object restricted to that variant's keys. */
  lemma VariantStrip(m: map<string, Json>)
    requires IsVariant(m)
    ensures Strip(VariantSchema, Some(JObject(m))) == Some(JObject(Restrict(m, VariantKeys(m["type"].s))))
  {
    if IsTextBlock(m) {
      TextBlockConforms(m);
      VariantStripAt(m, 0);
    } else if IsImageBlock(m) {
      ImageBlockConforms(m);
      VariantStripAt(m, 1);
    } else if IsIframeBlock(m) {
      IframeBlockConforms(m);
      VariantStripAt(m, 2);
    } else if IsCodeBlock(m) {
      CodeBlockConforms(m);
      VariantStripAt(m, 3);
    } else {
      TableBlockConforms(m);
      VariantStripAt(m, 4);
    }
  }

  /**
   * `blockSchema` accepts exactly the blocks of `IsBlock`, and its output keeps the shared keys
   * and the keys of the block's own variant.
   */
  lemma BlockConforms(j: Json)
    ensures Accepts(BlockSchema, Some(j)) <==> IsBlock(j)
    ensures IsBlock(j) ==> Strip(BlockSchema, Some(j)) == Some(BlockOutput(j))
  {
    if j.JObject? {
      var m := j.fields;
      BaseBlockConforms(m);
      VariantAccepts(m);
      if IsBlock(j) {
        VariantStrip(m);
        MergeRestrictions(m, BaseBlockKeys, VariantKeys(m["type"].s));
      }
    }
  }

  // Slides

  /** `z.array(blockSchema)` accepts exactly arrays of blocks and outputs each block's output. */
  lemma BlockListConforms(items: seq<Json>)
    ensures Accepts(ZArray(BlockSchema), Some(JArray(items))) <==> forall b | b in items :: IsBlock(b)
    ensures (forall b | b in items :: IsBlock(b)) ==>
      Strip(ZArray(BlockSchema), Some(JArray(items)))
      == Some(JArray(seq(|items|, k requires 0 <= k < |items| => BlockOutput(items[k]))))
  {
    forall k | 0 <= k < |items|
      ensures Accepts(BlockSchema, Some(items[k])) <==> IsBlock(items[k])
      ensures IsBlock(items[k]) ==> Strip(BlockSchema, Some(items[k])) == Some(BlockOutput(items[k]))
    {
      BlockConforms(items[k]);
    }
    if forall b | b in items :: IsBlock(b) {
      assert seq(|items|, k requires 0 <= k < |items| => Defined(Strip(BlockSchema, Some(items[k]))))
          == seq(|items|, k requires 0 <= k < |items| => BlockOutput(items[k]));
    } else {
      var b :| b in items && !IsBlock(b);
      var k :| 0 <= k < |items| && items[k] == b;
      assert !Accepts(BlockSchema, Some(items[k]));
    }
  }

  /** The last field of `slideSchema`, `blocks`, and what it contributes to the output. */
  lemma SlideBlocksField(m: map<string, Json>)
    ensures AcceptsFields(SlideSchema, m, 7) <==>
      ("blocks" in m ==> m["blocks"].JArray? && forall b | b in m["blocks"].items :: IsBlock(b))
    ensures AcceptsFields(SlideSchema, m, 7) ==>
      StripFields(SlideSchema, m, 7)
      == if "blocks" in m then
           var blocks := m["blocks"].items;
           map["blocks" := JArray(seq(|blocks|, k requires 0 <= k < |blocks| => BlockOutput(blocks[k])))]
         else map[]
  {
    var shape := SlideSchema.shape;
    assert shape[7] == Field("blocks", ZOptional(ZArray(BlockSchema)));
    assert AcceptsFields(SlideSchema, m, 8);
    assert StripFields(SlideSchema, m, 8) == map[];
    var v := Get(m, "blocks");
    assert AcceptsFields(SlideSchema, m, 7) <==> Accepts(ZOptional(ZArray(BlockSchema)), v);
    assert Accepts(ZOptional(ZArray(BlockSchema)), v) <==> v.None? || Accepts(ZArray(BlockSchema), v);
    if "blocks" in m && m["blocks"].JArray? {
      BlockListConforms(m["blocks"].items);
    }
  }

  /** `slideSchema` accepts exactly the slides of `IsSlide`. */
  lemma SlideAccepts(j: Json)
    ensures Accepts(SlideSchema, Some(j)) <==> IsSlide(j)
  {
    if j.JObject? {
      SlideAttributesPrefix(j.fields);
      SlideBlocksField(j.fields);
    }
  }

  /** The seven attributes of an accepted slide contribute their entries unchanged. */
  lemma SlideAttributesStrip(m: map<string, Json>)
    requires IsSlide(JObject(m))
    ensures StripFields(SlideSchema, m, 0) == StripFields(SlideSchema, m, 7) + Restrict(m, SlideKeys - {"blocks"})
  {
    SlideAccepts(JObject(m));
    SlideAttributesFlat();
    SlideAttributesKeySet();
    StripFlatFields(SlideSchema, m, 0, 7);
  }

  /** The output of an accepted slide is `SlideOutput`. */
  lemma SlideStrip(j: Json)
    requires IsSlide(j)
    ensures Strip(SlideSchema, Some(j)) == Some(SlideOutput(j))
  {
    var m := j.fields;
    SlideAccepts(j);
    SlideBlocksField(m);
    SlideAttributesStrip(m);
    var kept := Restrict(m, SlideKeys - {"blocks"});
    if "blocks" in m {
      var blocks := m["blocks"].items;
      InsertNewKey(kept, "blocks", JArray(seq(|blocks|, k requires 0 <= k < |blocks| => BlockOutput(blocks[k]))));
    } else {
      assert map[] + kept == kept;
    }
  }

  /** `slideSchema` accepts exactly the slides of `IsSlide` and outputs `SlideOutput`. */
  lemma SlideConforms(j: Json)
    ensures Accepts(SlideSchema, Some(j)) <==> IsSlide(j)
    ensures IsSlide(j) ==> Strip(SlideSchema, Some(j)) == Some(SlideOutput(j))
  {
    SlideAccepts(j);
    if IsSlide(j) {
      SlideStrip(j);
    }
  }

  // Slide entries and the deck

  /** `z.array(slideSchema)`, a vertical stack, accepts exactly arrays of slides. */
  lemma StackConforms(items: seq<Json>)
    ensures Accepts(ZArray(SlideSchema), Some(JArray(items))) <==> forall s | s in items :: IsSlide(s)
    ensures (forall s | s in items :: IsSlide(s)) ==>
      Strip(ZArray(SlideSchema), Some(JArray(items)))
      == Some(JArray(seq(|items|, k requires 0 <= k < |items| => SlideOutput(items[k]))))
  {
    forall k | 0 <= k < |items|
      ensures Accepts(SlideSchema, Some(items[k])) <==> IsSlide(items[k])
      ensures IsSlide(items[k]) ==> Strip(SlideSchema, Some(items[k])) == Some(SlideOutput(items[k]))
    {
      SlideConforms(items[k]);
    }
    if forall s | s in items :: IsSlide(s) {
      assert seq(|items|, k requires 0 <= k < |items| => Defined(Strip(SlideSchema, Some(items[k]))))
          == seq(|items|, k requires 0 <= k < |items| => SlideOutput(items[k]));
    } else {
      var s :| s in items && !IsSlide(s);
      var k :| 0 <= k < |items| && items[k] == s;
      assert !Accepts(SlideSchema, Some(items[k]));
    }
  }

  /** An entry of `slides` is accepted exactly when it is a slide or a stack of slides. */
  lemma SlideEntryConforms(j: Json)
    ensures Accepts(SlideEntrySchema, Some(j)) <==> IsSlideEntry(j)
    ensures IsSlideEntry(j) ==> Strip(SlideEntrySchema, Some(j)) == Some(SlideEntryOutput(j))
  {
    var v := Some(j);
    var options := SlideEntrySchema.options;
    SlideConforms(j);
    if j.JArray? {
      StackConforms(j.items);
    }
    if Accepts(SlideEntrySchema, v) {
      var k :| 0 <= k < |options| && Accepts(options[k], v);
      if k == 0 {} else {}
    }
    if IsSlide(j) {
      assert Accepts(options[0], v);
      assert StripUnion(SlideEntrySchema, v, 0) == Strip(SlideSchema, v);
    } else if IsSlideEntry(j) {
      assert Accepts(options[1], v);
      assert StripUnion(SlideEntrySchema, v, 0) == StripUnion(SlideEntrySchema, v, 1);
    }
  }

  /** The array of `slides` entries accepts exactly arrays of slide entries. */
  lemma EntriesConforms(items: seq<Json>)
    ensures Accepts(ZArray(SlideEntrySchema), Some(JArray(items))) <==> forall e | e in items :: IsSlideEntry(e)
    ensures (forall e | e in items :: IsSlideEntry(e)) ==>
      Strip(ZArray(SlideEntrySchema), Some(JArray(items)))
      == Some(JArray(seq(|items|, k requires 0 <= k < |items| => SlideEntryOutput(items[k]))))
  {
    forall k | 0 <= k < |items|
      ensures Accepts(SlideEntrySchema, Some(items[k])) <==> IsSlideEntry(items[k])
      ensures IsSlideEntry(items[k]) ==>
        Strip(SlideEntrySchema, Some(items[k])) == Some(SlideEntryOutput(items[k]))
    {
      SlideEntryConforms(items[k]);
    }
    if forall e | e in items :: IsSlideEntry(e) {
      assert seq(|items|, k requires 0 <= k < |items| => Defined(Strip(SlideEntrySchema, Some(items[k]))))
          == seq(|items|, k requires 0 <= k < |items| => SlideEntryOutput(items[k]));
    } else {
      var e :| e in items && !IsSlideEntry(e);
      var k :| 0 <= k < |items| && items[k] == e;
      assert !Accepts(SlideEntrySchema, Some(items[k]));
    }
  }

  /** The last field of `deckSchema`, the required `slides`, and what it contributes to the output. */
  lemma DeckSlidesField(m: map<string, Json>)
    ensures AcceptsFields(DeckSchema, m, 13) <==>
      "slides" in m && m["slides"].JArray? && forall e | e in m["slides"].items :: IsSlideEntry(e)
    ensures AcceptsFields(DeckSchema, m, 13) ==>
      var entries := m["slides"].items;
      StripFields(DeckSchema, m, 13)
      == map["slides" := JArray(seq(|entries|, k requires 0 <= k < |entries| => SlideEntryOutput(entries[k])))]
  {
    var shape := DeckSchema.shape;
    assert shape[13] == Field("slides", SlidesSchema);
    assert AcceptsFields(DeckSchema, m, 14);
    assert StripFields(DeckSchema, m, 14) == map[];
    var v := Get(m, "slides");
    assert AcceptsFields(DeckSchema, m, 13) <==> Accepts(SlidesSchema, v);
    assert Accepts(SlidesSchema, v) <==> Accepts(ZArray(SlideEntrySchema), v);
    if "slides" in m && m["slides"].JArray? {
      EntriesConforms(m["slides"].items);
    }
  }

  /** `deckSchema` accepts exactly the decks of `IsDeck`. */
  lemma DeckAccepts(j: Json)
    ensures Accepts(DeckSchema, Some(j)) <==> IsDeck(j)
  {
    if j.JObject? {
      DeckSettingsPrefix(j.fields);
      DeckSlidesField(j.fields);
    }
  }

  /** The thirteen settings of an accepted deck contribute their entries unchanged. */
  lemma DeckSettingsStrip(m: map<string, Json>)
    requires IsDeck(JObject(m))
    ensures StripFields(DeckSchema, m, 0) == StripFields(DeckSchema, m, 13) + Restrict(m, DeckKeys - {"slides"})
  {
    DeckAccepts(JObject(m));
    DeckSettingsFlat();
    DeckSettingsKeySet();
    StripFlatFields(DeckSchema, m, 0, 13);
  }

  /** The output of an accepted deck is `DeckOutput`. */
  lemma DeckStrip(j: Json)
    requires IsDeck(j)
    ensures Strip(DeckSchema, Some(j)) == Some(DeckOutput(j))
  {
    var m := j.fields;
    DeckAccepts(j);
    DeckSlidesField(m);
    DeckSettingsStrip(m);
    var entries := m["slides"].items;
    InsertNewKey(Restrict(m, DeckKeys - {"slides"}), "slides",
                 JArray(seq(|entries|, k requires 0 <= k < |entries| => SlideEntryOutput(entries[k]))));
  }

  /** `deckSchema` accepts exactly the decks of `IsDeck` and outputs `DeckOutput`. */
  lemma DeckConforms(j: Json)
    ensures Accepts(DeckSchema, Some(j)) <==> IsDeck(j)
    ensures IsDeck(j) ==> Strip(DeckSchema, Some(j)) == Some(DeckOutput(j))
  {
    DeckAccepts(j);
    if IsDeck(j) {
      DeckStrip(j);
    }
  }
}
