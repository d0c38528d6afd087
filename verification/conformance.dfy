module Conformance {
  import opened Json
  import opened Zod
  import opened ZodSchema
  import opened DeckRules

  /** `line-numbers`: a boolean or a string. */
  lemma LineNumbersField(m: map<string, Json>)
    ensures Accepts(ZOptional(ZUnion([ZBoolean, ZString])), Get(m, "line-numbers"))
        <==> ("line-numbers" in m ==> m["line-numbers"].JBool? || m["line-numbers"].JString?)
  {
    var options := [ZBoolean, ZString];
    var v := Get(m, "line-numbers");
    if Accepts(ZUnion(options), v) {
      var k :| 0 <= k < 2 && Accepts(options[k], v);
      if k == 0 {} else {}
    }
    if v.Some? && v.value.JBool? {
      assert Accepts(options[0], v);
    }
    if v.Some? && v.value.JString? {
      assert Accepts(options[1], v);
    }
  }

  /** Table `data`: an array of arrays of anything. */
  lemma TableDataField(m: map<string, Json>)
    ensures Accepts(ZOptional(ZArray(ZArray(ZAny))), Get(m, "data"))
        <==> ("data" in m ==> m["data"].JArray? && forall row | row in m["data"].items :: row.JArray?)
  {
    if "data" in m && m["data"].JArray? {
      var rows := m["data"].items;
      assert (forall k | 0 <= k < |rows| :: Accepts(ZArray(ZAny), Some(rows[k])))
         <==> (forall row | row in rows :: row.JArray?);
    }
  }

  lemma TextBlockFieldsSound0(m: map<string, Json>)
    requires AcceptsFields(TextBlockSchema, m, 0)
    ensures HasTag(m, "text") && ReqString(m, "value")
    ensures AcceptsFields(TextBlockSchema, m, 2)
  {
    var shape := TextBlockSchema.shape;
    assert HasTag(m, "text") by { assert Accepts(shape[0].schema, Get(m, shape[0].key)); }
    assert AcceptsFields(TextBlockSchema, m, 1);
    assert ReqString(m, "value") by { assert Accepts(shape[1].schema, Get(m, shape[1].key)); }
    assert AcceptsFields(TextBlockSchema, m, 2);
  }

  lemma TextBlockFieldsComplete0(m: map<string, Json>)
    requires HasTag(m, "text") && ReqString(m, "value")
    requires AcceptsFields(TextBlockSchema, m, 2)
    ensures AcceptsFields(TextBlockSchema, m, 0)
  {
    assert AcceptsFields(TextBlockSchema, m, 1);
    assert AcceptsFields(TextBlockSchema, m, 0);
  }

  lemma TextBlockFieldsSound1(m: map<string, Json>)
    requires AcceptsFields(TextBlockSchema, m, 2)
    ensures OptEnum(m, "format", TextFormats) && OptEnum(m, "align", TextAligns)
    ensures AcceptsFields(TextBlockSchema, m, 4)
  {
    var shape := TextBlockSchema.shape;
    assert OptEnum(m, "format", TextFormats) by { assert Accepts(shape[2].schema, Get(m, shape[2].key)); }
    assert AcceptsFields(TextBlockSchema, m, 3);
    assert OptEnum(m, "align", TextAligns) by { assert Accepts(shape[3].schema, Get(m, shape[3].key)); }
    assert AcceptsFields(TextBlockSchema, m, 4);
  }

  lemma TextBlockFieldsComplete1(m: map<string, Json>)
    requires OptEnum(m, "format", TextFormats) && OptEnum(m, "align", TextAligns)
    requires AcceptsFields(TextBlockSchema, m, 4)
    ensures AcceptsFields(TextBlockSchema, m, 2)
  {
    assert AcceptsFields(TextBlockSchema, m, 3);
    assert AcceptsFields(TextBlockSchema, m, 2);
  }

  lemma TextBlockFieldsSound2(m: map<string, Json>)
    requires AcceptsFields(TextBlockSchema, m, 4)
    ensures OptInt(m, "padding") && OptString(m, "color")
    ensures AcceptsFields(TextBlockSchema, m, 6)
  {
    var shape := TextBlockSchema.shape;
    assert OptInt(m, "padding") by { assert Accepts(shape[4].schema, Get(m, shape[4].key)); }
    assert AcceptsFields(TextBlockSchema, m, 5);
    assert OptString(m, "color") by { assert Accepts(shape[5].schema, Get(m, shape[5].key)); }
    assert AcceptsFields(TextBlockSchema, m, 6);
  }

  lemma TextBlockFieldsComplete2(m: map<string, Json>)
    requires OptInt(m, "padding") && OptString(m, "color")
    requires AcceptsFields(TextBlockSchema, m, 6)
    ensures AcceptsFields(TextBlockSchema, m, 4)
  {
    assert AcceptsFields(TextBlockSchema, m, 5);
    assert AcceptsFields(TextBlockSchema, m, 4);
  }

  lemma TextBlockFieldsSound3(m: map<string, Json>)
    requires AcceptsFields(TextBlockSchema, m, 6)
    ensures OptString(m, "font-size")
    ensures AcceptsFields(TextBlockSchema, m, 7)
  {
    var shape := TextBlockSchema.shape;
    assert OptString(m, "font-size") by { assert Accepts(shape[6].schema, Get(m, shape[6].key)); }
    assert AcceptsFields(TextBlockSchema, m, 7);
  }

  lemma TextBlockFieldsComplete3(m: map<string, Json>)
    requires OptString(m, "font-size")
    requires AcceptsFields(TextBlockSchema, m, 7)
    ensures AcceptsFields(TextBlockSchema, m, 6)
  {
    assert AcceptsFields(TextBlockSchema, m, 6);
  }

  lemma TextBlockSound(m: map<string, Json>)
    requires Accepts(TextBlockSchema, Some(JObject(m)))
    ensures IsTextBlock(m)
  {
    assert AcceptsFields(TextBlockSchema, m, 0);
    TextBlockFieldsSound0(m);
    TextBlockFieldsSound1(m);
    TextBlockFieldsSound2(m);
    TextBlockFieldsSound3(m);
  }

  lemma TextBlockComplete(m: map<string, Json>)
    requires IsTextBlock(m)
    ensures Accepts(TextBlockSchema, Some(JObject(m)))
  {
    assert AcceptsFields(TextBlockSchema, m, 7);
    TextBlockFieldsComplete3(m);
    TextBlockFieldsComplete2(m);
    TextBlockFieldsComplete1(m);
    TextBlockFieldsComplete0(m);
  }

  lemma TextBlockFlat()
    ensures FlatShape(TextBlockSchema.shape)
  {
    var shape := TextBlockSchema.shape;
    forall k | 0 <= k < 7 ensures Passthrough(shape[k].schema) {
      if k == 0 {} else if k == 1 {} else if k == 2 {} else if k == 3 {} else if k == 4 {} else if k == 5 {} else {}
    }
  }

  lemma TextBlockKeySet()
    ensures KeysBetween(TextBlockSchema.shape, 0, 7) == VariantKeys("text")
  {
    var shape := TextBlockSchema.shape;
    var keys := KeysBetween(shape, 0, 7);
    assert shape[0].key in keys && shape[1].key in keys && shape[2].key in keys && shape[3].key in keys && shape[4].key in keys && shape[5].key in keys && shape[6].key in keys;
    forall x | x in keys ensures x in VariantKeys("text") {
      var k :| 0 <= k < 7 && shape[k].key == x;
      if k == 0 {} else if k == 1 {} else if k == 2 {} else if k == 3 {} else if k == 4 {} else if k == 5 {} else {}
    }
  }

  lemma TextBlockConforms(m: map<string, Json>)
    ensures Accepts(TextBlockSchema, Some(JObject(m))) <==> IsTextBlock(m)
    ensures IsTextBlock(m) ==> Strip(TextBlockSchema, Some(JObject(m))) == Some(JObject(Restrict(m, VariantKeys("text"))))
  {
    if Accepts(TextBlockSchema, Some(JObject(m))) {
      TextBlockSound(m);
    }
    if IsTextBlock(m) {
      TextBlockComplete(m);
      TextBlockFlat();
      FlatObjectStrip(TextBlockSchema, m);
      TextBlockKeySet();
    }
  }

  lemma ImageBlockFieldsSound0(m: map<string, Json>)
    requires AcceptsFields(ImageBlockSchema, m, 0)
    ensures HasTag(m, "image") && ReqString(m, "value")
    ensures AcceptsFields(ImageBlockSchema, m, 2)
  {
    var shape := ImageBlockSchema.shape;
    assert HasTag(m, "image") by { assert Accepts(shape[0].schema, Get(m, shape[0].key)); }
    assert AcceptsFields(ImageBlockSchema, m, 1);
    assert ReqString(m, "value") by { assert Accepts(shape[1].schema, Get(m, shape[1].key)); }
    assert AcceptsFields(ImageBlockSchema, m, 2);
  }

  lemma ImageBlockFieldsComplete0(m: map<string, Json>)
    requires HasTag(m, "image") && ReqString(m, "value")
    requires AcceptsFields(ImageBlockSchema, m, 2)
    ensures AcceptsFields(ImageBlockSchema, m, 0)
  {
    assert AcceptsFields(ImageBlockSchema, m, 1);
    assert AcceptsFields(ImageBlockSchema, m, 0);
  }

  lemma ImageBlockSound(m: map<string, Json>)
    requires Accepts(ImageBlockSchema, Some(JObject(m)))
    ensures IsImageBlock(m)
  {
    assert AcceptsFields(ImageBlockSchema, m, 0);
    ImageBlockFieldsSound0(m);
  }

  lemma ImageBlockComplete(m: map<string, Json>)
    requires IsImageBlock(m)
    ensures Accepts(ImageBlockSchema, Some(JObject(m)))
  {
    assert AcceptsFields(ImageBlockSchema, m, 2);
    ImageBlockFieldsComplete0(m);
  }

  lemma ImageBlockFlat()
    ensures FlatShape(ImageBlockSchema.shape)
  {
    var shape := ImageBlockSchema.shape;
    forall k | 0 <= k < 2 ensures Passthrough(shape[k].schema) {
      if k == 0 {} else {}
    }
  }

  lemma ImageBlockKeySet()
    ensures KeysBetween(ImageBlockSchema.shape, 0, 2) == VariantKeys("image")
  {
    var shape := ImageBlockSchema.shape;
    var keys := KeysBetween(shape, 0, 2);
    assert shape[0].key in keys && shape[1].key in keys;
    forall x | x in keys ensures x in VariantKeys("image") {
      var k :| 0 <= k < 2 && shape[k].key == x;
      if k == 0 {} else {}
    }
  }

  lemma ImageBlockConforms(m: map<string, Json>)
    ensures Accepts(ImageBlockSchema, Some(JObject(m))) <==> IsImageBlock(m)
    ensures IsImageBlock(m) ==> Strip(ImageBlockSchema, Some(JObject(m))) == Some(JObject(Restrict(m, VariantKeys("image"))))
  {
    if Accepts(ImageBlockSchema, Some(JObject(m))) {
      ImageBlockSound(m);
    }
    if IsImageBlock(m) {
      ImageBlockComplete(m);
      ImageBlockFlat();
      FlatObjectStrip(ImageBlockSchema, m);
      ImageBlockKeySet();
    }
  }

  lemma IframeBlockFieldsSound0(m: map<string, Json>)
    requires AcceptsFields(IframeBlockSchema, m, 0)
    ensures HasTag(m, "iframe") && ReqString(m, "value")
    ensures AcceptsFields(IframeBlockSchema, m, 2)
  {
    var shape := IframeBlockSchema.shape;
    assert HasTag(m, "iframe") by { assert Accepts(shape[0].schema, Get(m, shape[0].key)); }
    assert AcceptsFields(IframeBlockSchema, m, 1);
    assert ReqString(m, "value") by { assert Accepts(shape[1].schema, Get(m, shape[1].key)); }
    assert AcceptsFields(IframeBlockSchema, m, 2);
  }

  lemma IframeBlockFieldsComplete0(m: map<string, Json>)
    requires HasTag(m, "iframe") && ReqString(m, "value")
    requires AcceptsFields(IframeBlockSchema, m, 2)
    ensures AcceptsFields(IframeBlockSchema, m, 0)
  {
    assert AcceptsFields(IframeBlockSchema, m, 1);
    assert AcceptsFields(IframeBlockSchema, m, 0);
  }

  lemma IframeBlockSound(m: map<string, Json>)
    requires Accepts(IframeBlockSchema, Some(JObject(m)))
    ensures IsIframeBlock(m)
  {
    assert AcceptsFields(IframeBlockSchema, m, 0);
    IframeBlockFieldsSound0(m);
  }

  lemma IframeBlockComplete(m: map<string, Json>)
    requires IsIframeBlock(m)
    ensures Accepts(IframeBlockSchema, Some(JObject(m)))
  {
    assert AcceptsFields(IframeBlockSchema, m, 2);
    IframeBlockFieldsComplete0(m);
  }

  lemma IframeBlockFlat()
    ensures FlatShape(IframeBlockSchema.shape)
  {
    var shape := IframeBlockSchema.shape;
    forall k | 0 <= k < 2 ensures Passthrough(shape[k].schema) {
      if k == 0 {} else {}
    }
  }

  lemma IframeBlockKeySet()
    ensures KeysBetween(IframeBlockSchema.shape, 0, 2) == VariantKeys("iframe")
  {
    var shape := IframeBlockSchema.shape;
    var keys := KeysBetween(shape, 0, 2);
    assert shape[0].key in keys && shape[1].key in keys;
    forall x | x in keys ensures x in VariantKeys("iframe") {
      var k :| 0 <= k < 2 && shape[k].key == x;
      if k == 0 {} else {}
    }
  }

  lemma IframeBlockConforms(m: map<string, Json>)
    ensures Accepts(IframeBlockSchema, Some(JObject(m))) <==> IsIframeBlock(m)
    ensures IsIframeBlock(m) ==> Strip(IframeBlockSchema, Some(JObject(m))) == Some(JObject(Restrict(m, VariantKeys("iframe"))))
  {
    if Accepts(IframeBlockSchema, Some(JObject(m))) {
      IframeBlockSound(m);
    }
    if IsIframeBlock(m) {
      IframeBlockComplete(m);
      IframeBlockFlat();
      FlatObjectStrip(IframeBlockSchema, m);
      IframeBlockKeySet();
    }
  }

  lemma CodeBlockFieldsSound0(m: map<string, Json>)
    requires AcceptsFields(CodeBlockSchema, m, 0)
    ensures HasTag(m, "code") && ReqString(m, "value")
    ensures AcceptsFields(CodeBlockSchema, m, 2)
  {
    var shape := CodeBlockSchema.shape;
    assert HasTag(m, "code") by { assert Accepts(shape[0].schema, Get(m, shape[0].key)); }
    assert AcceptsFields(CodeBlockSchema, m, 1);
    assert ReqString(m, "value") by { assert Accepts(shape[1].schema, Get(m, shape[1].key)); }
    assert AcceptsFields(CodeBlockSchema, m, 2);
  }

  lemma CodeBlockFieldsComplete0(m: map<string, Json>)
    requires HasTag(m, "code") && ReqString(m, "value")
    requires AcceptsFields(CodeBlockSchema, m, 2)
    ensures AcceptsFields(CodeBlockSchema, m, 0)
  {
    assert AcceptsFields(CodeBlockSchema, m, 1);
    assert AcceptsFields(CodeBlockSchema, m, 0);
  }

  lemma CodeBlockFieldsSound1(m: map<string, Json>)
    requires AcceptsFields(CodeBlockSchema, m, 2)
    ensures OptString(m, "language") && OptBool(m, "word-wrap")
    ensures AcceptsFields(CodeBlockSchema, m, 4)
  {
    var shape := CodeBlockSchema.shape;
    assert OptString(m, "language") by { assert Accepts(shape[2].schema, Get(m, shape[2].key)); }
    assert AcceptsFields(CodeBlockSchema, m, 3);
    assert OptBool(m, "word-wrap") by { assert Accepts(shape[3].schema, Get(m, shape[3].key)); }
    assert AcceptsFields(CodeBlockSchema, m, 4);
  }

  lemma CodeBlockFieldsComplete1(m: map<string, Json>)
    requires OptString(m, "language") && OptBool(m, "word-wrap")
    requires AcceptsFields(CodeBlockSchema, m, 4)
    ensures AcceptsFields(CodeBlockSchema, m, 2)
  {
    assert AcceptsFields(CodeBlockSchema, m, 3);
    assert AcceptsFields(CodeBlockSchema, m, 2);
  }

  lemma CodeBlockFieldsSound2(m: map<string, Json>)
    requires AcceptsFields(CodeBlockSchema, m, 4)
    ensures ("line-numbers" in m ==> m["line-numbers"].JBool? || m["line-numbers"].JString?)
    ensures AcceptsFields(CodeBlockSchema, m, 5)
  {
    var shape := CodeBlockSchema.shape;
    assert ("line-numbers" in m ==> m["line-numbers"].JBool? || m["line-numbers"].JString?) by { assert Accepts(shape[4].schema, Get(m, shape[4].key)); LineNumbersField(m); }
    assert AcceptsFields(CodeBlockSchema, m, 5);
  }

  lemma CodeBlockFieldsComplete2(m: map<string, Json>)
    requires ("line-numbers" in m ==> m["line-numbers"].JBool? || m["line-numbers"].JString?)
    requires AcceptsFields(CodeBlockSchema, m, 5)
    ensures AcceptsFields(CodeBlockSchema, m, 4)
  {
    LineNumbersField(m); 
    assert AcceptsFields(CodeBlockSchema, m, 4);
  }

  lemma CodeBlockFieldsSound3(m: map<string, Json>)
    requires AcceptsFields(CodeBlockSchema, m, 5)
    ensures OptEnum(m, "theme", CodeThemes)
    ensures AcceptsFields(CodeBlockSchema, m, 6)
  {
    var shape := CodeBlockSchema.shape;
    assert OptEnum(m, "theme", CodeThemes) by { assert Accepts(shape[5].schema, Get(m, shape[5].key)); }
    assert AcceptsFields(CodeBlockSchema, m, 6);
  }

  lemma CodeBlockFieldsComplete3(m: map<string, Json>)
    requires OptEnum(m, "theme", CodeThemes)
    requires AcceptsFields(CodeBlockSchema, m, 6)
    ensures AcceptsFields(CodeBlockSchema, m, 5)
  {
    assert AcceptsFields(CodeBlockSchema, m, 5);
  }

  lemma CodeBlockSound(m: map<string, Json>)
    requires Accepts(CodeBlockSchema, Some(JObject(m)))
    ensures IsCodeBlock(m)
  {
    assert AcceptsFields(CodeBlockSchema, m, 0);
    CodeBlockFieldsSound0(m);
    CodeBlockFieldsSound1(m);
    CodeBlockFieldsSound2(m);
    CodeBlockFieldsSound3(m);
  }

  lemma CodeBlockComplete(m: map<string, Json>)
    requires IsCodeBlock(m)
    ensures Accepts(CodeBlockSchema, Some(JObject(m)))
  {
    assert AcceptsFields(CodeBlockSchema, m, 6);
    CodeBlockFieldsComplete3(m);
    CodeBlockFieldsComplete2(m);
    CodeBlockFieldsComplete1(m);
    CodeBlockFieldsComplete0(m);
  }

  lemma CodeBlockFlat()
    ensures FlatShape(CodeBlockSchema.shape)
  {
    var shape := CodeBlockSchema.shape;
    forall k | 0 <= k < 6 ensures Passthrough(shape[k].schema) {
      if k == 0 {} else if k == 1 {} else if k == 2 {} else if k == 3 {} else if k == 4 {} else {}
    }
  }

  lemma CodeBlockKeySet()
    ensures KeysBetween(CodeBlockSchema.shape, 0, 6) == VariantKeys("code")
  {
    var shape := CodeBlockSchema.shape;
    var keys := KeysBetween(shape, 0, 6);
    assert shape[0].key in keys && shape[1].key in keys && shape[2].key in keys && shape[3].key in keys && shape[4].key in keys && shape[5].key in keys;
    forall x | x in keys ensures x in VariantKeys("code") {
      var k :| 0 <= k < 6 && shape[k].key == x;
      if k == 0 {} else if k == 1 {} else if k == 2 {} else if k == 3 {} else if k == 4 {} else {}
    }
  }

  lemma CodeBlockConforms(m: map<string, Json>)
    ensures Accepts(CodeBlockSchema, Some(JObject(m))) <==> IsCodeBlock(m)
    ensures IsCodeBlock(m) ==> Strip(CodeBlockSchema, Some(JObject(m))) == Some(JObject(Restrict(m, VariantKeys("code"))))
  {
    if Accepts(CodeBlockSchema, Some(JObject(m))) {
      CodeBlockSound(m);
    }
    if IsCodeBlock(m) {
      CodeBlockComplete(m);
      CodeBlockFlat();
      FlatObjectStrip(CodeBlockSchema, m);
      CodeBlockKeySet();
    }
  }

  lemma TableBlockFieldsSound0(m: map<string, Json>)
    requires AcceptsFields(TableBlockSchema, m, 0)
    ensures HasTag(m, "table") && ("data" in m ==> m["data"].JArray? && forall row | row in m["data"].items :: row.JArray?)
    ensures AcceptsFields(TableBlockSchema, m, 2)
  {
    var shape := TableBlockSchema.shape;
    assert HasTag(m, "table") by { assert Accepts(shape[0].schema, Get(m, shape[0].key)); }
    assert AcceptsFields(TableBlockSchema, m, 1);
    assert ("data" in m ==> m["data"].JArray? && forall row | row in m["data"].items :: row.JArray?) by { assert Accepts(shape[1].schema, Get(m, shape[1].key)); TableDataField(m); }
    assert AcceptsFields(TableBlockSchema, m, 2);
  }

  lemma TableBlockFieldsComplete0(m: map<string, Json>)
    requires HasTag(m, "table") && ("data" in m ==> m["data"].JArray? && forall row | row in m["data"].items :: row.JArray?)
    requires AcceptsFields(TableBlockSchema, m, 2)
    ensures AcceptsFields(TableBlockSchema, m, 0)
  {
    TableDataField(m); 
    assert AcceptsFields(TableBlockSchema, m, 1);
    assert AcceptsFields(TableBlockSchema, m, 0);
  }

  lemma TableBlockFieldsSound1(m: map<string, Json>)
    requires AcceptsFields(TableBlockSchema, m, 2)
    ensures OptString(m, "html") && OptInt(m, "padding")
    ensures AcceptsFields(TableBlockSchema, m, 4)
  {
    var shape := TableBlockSchema.shape;
    assert OptString(m, "html") by { assert Accepts(shape[2].schema, Get(m, shape[2].key)); }
    assert AcceptsFields(TableBlockSchema, m, 3);
    assert OptInt(m, "padding") by { assert Accepts(shape[3].schema, Get(m, shape[3].key)); }
    assert AcceptsFields(TableBlockSchema, m, 4);
  }

  lemma TableBlockFieldsComplete1(m: map<string, Json>)
    requires OptString(m, "html") && OptInt(m, "padding")
    requires AcceptsFields(TableBlockSchema, m, 4)
    ensures AcceptsFields(TableBlockSchema, m, 2)
  {
    assert AcceptsFields(TableBlockSchema, m, 3);
    assert AcceptsFields(TableBlockSchema, m, 2);
  }

  lemma TableBlockFieldsSound2(m: map<string, Json>)
    requires AcceptsFields(TableBlockSchema, m, 4)
    ensures OptString(m, "text-color") && OptInt(m, "border-width")
    ensures AcceptsFields(TableBlockSchema, m, 6)
  {
    var shape := TableBlockSchema.shape;
    assert OptString(m, "text-color") by { assert Accepts(shape[4].schema, Get(m, shape[4].key)); }
    assert AcceptsFields(TableBlockSchema, m, 5);
    assert OptInt(m, "border-width") by { assert Accepts(shape[5].schema, Get(m, shape[5].key)); }
    assert AcceptsFields(TableBlockSchema, m, 6);
  }

  lemma TableBlockFieldsComplete2(m: map<string, Json>)
    requires OptString(m, "text-color") && OptInt(m, "border-width")
    requires AcceptsFields(TableBlockSchema, m, 6)
    ensures AcceptsFields(TableBlockSchema, m, 4)
  {
    assert AcceptsFields(TableBlockSchema, m, 5);
    assert AcceptsFields(TableBlockSchema, m, 4);
  }

  lemma TableBlockFieldsSound3(m: map<string, Json>)
    requires AcceptsFields(TableBlockSchema, m, 6)
    ensures OptString(m, "border-color")
    ensures AcceptsFields(TableBlockSchema, m, 7)
  {
    var shape := TableBlockSchema.shape;
    assert OptString(m, "border-color") by { assert Accepts(shape[6].schema, Get(m, shape[6].key)); }
    assert AcceptsFields(TableBlockSchema, m, 7);
  }

  lemma TableBlockFieldsComplete3(m: map<string, Json>)
    requires OptString(m, "border-color")
    requires AcceptsFields(TableBlockSchema, m, 7)
    ensures AcceptsFields(TableBlockSchema, m, 6)
  {
    assert AcceptsFields(TableBlockSchema, m, 6);
  }

  lemma TableBlockSound(m: map<string, Json>)
    requires Accepts(TableBlockSchema, Some(JObject(m)))
    ensures IsTableBlock(m)
  {
    assert AcceptsFields(TableBlockSchema, m, 0);
    TableBlockFieldsSound0(m);
    TableBlockFieldsSound1(m);
    TableBlockFieldsSound2(m);
    TableBlockFieldsSound3(m);
  }

  lemma TableBlockComplete(m: map<string, Json>)
    requires IsTableBlock(m)
    ensures Accepts(TableBlockSchema, Some(JObject(m)))
  {
    assert AcceptsFields(TableBlockSchema, m, 7);
    TableBlockFieldsComplete3(m);
    TableBlockFieldsComplete2(m);
    TableBlockFieldsComplete1(m);
    TableBlockFieldsComplete0(m);
  }

  lemma TableBlockFlat()
    ensures FlatShape(TableBlockSchema.shape)
  {
    var shape := TableBlockSchema.shape;
    forall k | 0 <= k < 7 ensures Passthrough(shape[k].schema) {
      if k == 0 {} else if k == 1 {} else if k == 2 {} else if k == 3 {} else if k == 4 {} else if k == 5 {} else {}
    }
  }

  lemma TableBlockKeySet()
    ensures KeysBetween(TableBlockSchema.shape, 0, 7) == VariantKeys("table")
  {
    var shape := TableBlockSchema.shape;
    var keys := KeysBetween(shape, 0, 7);
    assert shape[0].key in keys && shape[1].key in keys && shape[2].key in keys && shape[3].key in keys && shape[4].key in keys && shape[5].key in keys && shape[6].key in keys;
    forall x | x in keys ensures x in VariantKeys("table") {
      var k :| 0 <= k < 7 && shape[k].key == x;
      if k == 0 {} else if k == 1 {} else if k == 2 {} else if k == 3 {} else if k == 4 {} else if k == 5 {} else {}
    }
  }

  lemma TableBlockConforms(m: map<string, Json>)
    ensures Accepts(TableBlockSchema, Some(JObject(m))) <==> IsTableBlock(m)
    ensures IsTableBlock(m) ==> Strip(TableBlockSchema, Some(JObject(m))) == Some(JObject(Restrict(m, VariantKeys("table"))))
  {
    if Accepts(TableBlockSchema, Some(JObject(m))) {
      TableBlockSound(m);
    }
    if IsTableBlock(m) {
      TableBlockComplete(m);
      TableBlockFlat();
      FlatObjectStrip(TableBlockSchema, m);
      TableBlockKeySet();
    }
  }

  lemma BaseBlockFieldsSound0(m: map<string, Json>)
    requires AcceptsFields(BaseBlockSchema, m, 0)
    ensures OptInt(m, "x") && OptInt(m, "y")
    ensures AcceptsFields(BaseBlockSchema, m, 2)
  {
    var shape := BaseBlockSchema.shape;
    assert OptInt(m, "x") by { assert Accepts(shape[0].schema, Get(m, shape[0].key)); }
    assert AcceptsFields(BaseBlockSchema, m, 1);
    assert OptInt(m, "y") by { assert Accepts(shape[1].schema, Get(m, shape[1].key)); }
    assert AcceptsFields(BaseBlockSchema, m, 2);
  }

  lemma BaseBlockFieldsComplete0(m: map<string, Json>)
    requires OptInt(m, "x") && OptInt(m, "y")
    requires AcceptsFields(BaseBlockSchema, m, 2)
    ensures AcceptsFields(BaseBlockSchema, m, 0)
  {
    assert AcceptsFields(BaseBlockSchema, m, 1);
    assert AcceptsFields(BaseBlockSchema, m, 0);
  }

  lemma BaseBlockFieldsSound1(m: map<string, Json>)
    requires AcceptsFields(BaseBlockSchema, m, 2)
    ensures OptInt(m, "width") && OptInt(m, "height")
    ensures AcceptsFields(BaseBlockSchema, m, 4)
  {
    var shape := BaseBlockSchema.shape;
    assert OptInt(m, "width") by { assert Accepts(shape[2].schema, Get(m, shape[2].key)); }
    assert AcceptsFields(BaseBlockSchema, m, 3);
    assert OptInt(m, "height") by { assert Accepts(shape[3].schema, Get(m, shape[3].key)); }
    assert AcceptsFields(BaseBlockSchema, m, 4);
  }

  lemma BaseBlockFieldsComplete1(m: map<string, Json>)
    requires OptInt(m, "width") && OptInt(m, "height")
    requires AcceptsFields(BaseBlockSchema, m, 4)
    ensures AcceptsFields(BaseBlockSchema, m, 2)
  {
    assert AcceptsFields(BaseBlockSchema, m, 3);
    assert AcceptsFields(BaseBlockSchema, m, 2);
  }

  lemma BaseBlockFieldsSound2(m: map<string, Json>)
    requires AcceptsFields(BaseBlockSchema, m, 4)
    ensures OptString(m, "class") && ("data" in m ==> m["data"].JObject?)
    ensures AcceptsFields(BaseBlockSchema, m, 6)
  {
    var shape := BaseBlockSchema.shape;
    assert OptString(m, "class") by { assert Accepts(shape[4].schema, Get(m, shape[4].key)); }
    assert AcceptsFields(BaseBlockSchema, m, 5);
    assert ("data" in m ==> m["data"].JObject?) by { assert Accepts(shape[5].schema, Get(m, shape[5].key)); }
    assert AcceptsFields(BaseBlockSchema, m, 6);
  }

  lemma BaseBlockFieldsComplete2(m: map<string, Json>)
    requires OptString(m, "class") && ("data" in m ==> m["data"].JObject?)
    requires AcceptsFields(BaseBlockSchema, m, 6)
    ensures AcceptsFields(BaseBlockSchema, m, 4)
  {
    assert AcceptsFields(BaseBlockSchema, m, 5);
    assert AcceptsFields(BaseBlockSchema, m, 4);
  }

  lemma BaseBlockFieldsSound3(m: map<string, Json>)
    requires AcceptsFields(BaseBlockSchema, m, 6)
    ensures OptEnum(m, "animation-type", AnimationTypes)
    ensures AcceptsFields(BaseBlockSchema, m, 7)
  {
    var shape := BaseBlockSchema.shape;
    assert OptEnum(m, "animation-type", AnimationTypes) by { assert Accepts(shape[6].schema, Get(m, shape[6].key)); }
    assert AcceptsFields(BaseBlockSchema, m, 7);
  }

  lemma BaseBlockFieldsComplete3(m: map<string, Json>)
    requires OptEnum(m, "animation-type", AnimationTypes)
    requires AcceptsFields(BaseBlockSchema, m, 7)
    ensures AcceptsFields(BaseBlockSchema, m, 6)
  {
    assert AcceptsFields(BaseBlockSchema, m, 6);
  }

  lemma BaseBlockFieldsSound4(m: map<string, Json>)
    requires AcceptsFields(BaseBlockSchema, m, 7)
    ensures OptEnum(m, "animation-trigger", AnimationTriggers) && OptNumber(m, "animation-duration")
    ensures AcceptsFields(BaseBlockSchema, m, 9)
  {
    var shape := BaseBlockSchema.shape;
    assert OptEnum(m, "animation-trigger", AnimationTriggers) by { assert Accepts(shape[7].schema, Get(m, shape[7].key)); }
    assert AcceptsFields(BaseBlockSchema, m, 8);
    assert OptNumber(m, "animation-duration") by { assert Accepts(shape[8].schema, Get(m, shape[8].key)); }
    assert AcceptsFields(BaseBlockSchema, m, 9);
  }

  lemma BaseBlockFieldsComplete4(m: map<string, Json>)
    requires OptEnum(m, "animation-trigger", AnimationTriggers) && OptNumber(m, "animation-duration")
    requires AcceptsFields(BaseBlockSchema, m, 9)
    ensures AcceptsFields(BaseBlockSchema, m, 7)
  {
    assert AcceptsFields(BaseBlockSchema, m, 8);
    assert AcceptsFields(BaseBlockSchema, m, 7);
  }

  lemma BaseBlockFieldsSound5(m: map<string, Json>)
    requires AcceptsFields(BaseBlockSchema, m, 9)
    ensures OptNumber(m, "animation-delay")
    ensures AcceptsFields(BaseBlockSchema, m, 10)
  {
    var shape := BaseBlockSchema.shape;
    assert OptNumber(m, "animation-delay") by { assert Accepts(shape[9].schema, Get(m, shape[9].key)); }
    assert AcceptsFields(BaseBlockSchema, m, 10);
  }

  lemma BaseBlockFieldsComplete5(m: map<string, Json>)
    requires OptNumber(m, "animation-delay")
    requires AcceptsFields(BaseBlockSchema, m, 10)
    ensures AcceptsFields(BaseBlockSchema, m, 9)
  {
    assert AcceptsFields(BaseBlockSchema, m, 9);
  }

  lemma BaseBlockSound(m: map<string, Json>)
    requires Accepts(BaseBlockSchema, Some(JObject(m)))
    ensures IsBaseBlock(m)
  {
    assert AcceptsFields(BaseBlockSchema, m, 0);
    BaseBlockFieldsSound0(m);
    BaseBlockFieldsSound1(m);
    BaseBlockFieldsSound2(m);
    BaseBlockFieldsSound3(m);
    BaseBlockFieldsSound4(m);
    BaseBlockFieldsSound5(m);
  }

  lemma BaseBlockComplete(m: map<string, Json>)
    requires IsBaseBlock(m)
    ensures Accepts(BaseBlockSchema, Some(JObject(m)))
  {
    assert AcceptsFields(BaseBlockSchema, m, 10);
    BaseBlockFieldsComplete5(m);
    BaseBlockFieldsComplete4(m);
    BaseBlockFieldsComplete3(m);
    BaseBlockFieldsComplete2(m);
    BaseBlockFieldsComplete1(m);
    BaseBlockFieldsComplete0(m);
  }

  lemma BaseBlockFlat()
    ensures FlatShape(BaseBlockSchema.shape)
  {
    var shape := BaseBlockSchema.shape;
    forall k | 0 <= k < 10 ensures Passthrough(shape[k].schema) {
      if k == 0 {} else if k == 1 {} else if k == 2 {} else if k == 3 {} else if k == 4 {} else if k == 5 {} else if k == 6 {} else if k == 7 {} else if k == 8 {} else {}
    }
  }

  lemma BaseBlockKeySet()
    ensures KeysBetween(BaseBlockSchema.shape, 0, 10) == BaseBlockKeys
  {
    var shape := BaseBlockSchema.shape;
    KeysBetweenSplit(shape, 0, 5, 10);
    BaseBlockKeySetLow();
    BaseBlockKeySetHigh();
  }

  lemma BaseBlockKeySetLow()
    ensures KeysBetween(BaseBlockSchema.shape, 0, 5) == {"x", "y", "width", "height", "class"}
  {
    var shape := BaseBlockSchema.shape;
    var keys := KeysBetween(shape, 0, 5);
    assert shape[0].key in keys && shape[1].key in keys && shape[2].key in keys && shape[3].key in keys && shape[4].key in keys;
    forall x | x in keys ensures x in {"x", "y", "width", "height", "class"} {
      var k :| 0 <= k < 5 && shape[k].key == x;
      if k == 0 {} else if k == 1 {} else if k == 2 {} else if k == 3 {} else {}
    }
  }

  lemma BaseBlockKeySetHigh()
    ensures KeysBetween(BaseBlockSchema.shape, 5, 10) == {"data", "animation-type", "animation-trigger", "animation-duration", "animation-delay"}
  {
    var shape := BaseBlockSchema.shape;
    var keys := KeysBetween(shape, 5, 10);
    assert shape[5].key in keys && shape[6].key in keys && shape[7].key in keys && shape[8].key in keys && shape[9].key in keys;
    forall x | x in keys ensures x in {"data", "animation-type", "animation-trigger", "animation-duration", "animation-delay"} {
      var k :| 5 <= k < 10 && shape[k].key == x;
      if k == 5 {} else if k == 6 {} else if k == 7 {} else if k == 8 {} else {}
    }
  }

  lemma BaseBlockConforms(m: map<string, Json>)
    ensures Accepts(BaseBlockSchema, Some(JObject(m))) <==> IsBaseBlock(m)
    ensures IsBaseBlock(m) ==> Strip(BaseBlockSchema, Some(JObject(m))) == Some(JObject(Restrict(m, BaseBlockKeys)))
  {
    if Accepts(BaseBlockSchema, Some(JObject(m))) {
      BaseBlockSound(m);
    }
    if IsBaseBlock(m) {
      BaseBlockComplete(m);
      BaseBlockFlat();
      FlatObjectStrip(BaseBlockSchema, m);
      BaseBlockKeySet();
    }
  }

  lemma SlideAttributesFieldsSound0(m: map<string, Json>)
    requires AcceptsFields(SlideSchema, m, 0)
    ensures OptString(m, "id") && OptString(m, "background-color")
    ensures AcceptsFields(SlideSchema, m, 2)
  {
    var shape := SlideSchema.shape;
    assert OptString(m, "id") by { assert Accepts(shape[0].schema, Get(m, shape[0].key)); }
    assert AcceptsFields(SlideSchema, m, 1);
    assert OptString(m, "background-color") by { assert Accepts(shape[1].schema, Get(m, shape[1].key)); }
    assert AcceptsFields(SlideSchema, m, 2);
  }

  lemma SlideAttributesFieldsComplete0(m: map<string, Json>)
    requires OptString(m, "id") && OptString(m, "background-color")
    requires AcceptsFields(SlideSchema, m, 2)
    ensures AcceptsFields(SlideSchema, m, 0)
  {
    assert AcceptsFields(SlideSchema, m, 1);
    assert AcceptsFields(SlideSchema, m, 0);
  }

  lemma SlideAttributesFieldsSound1(m: map<string, Json>)
    requires AcceptsFields(SlideSchema, m, 2)
    ensures OptString(m, "background-image") && OptEnum(m, "background-size", BackgroundSizes)
    ensures AcceptsFields(SlideSchema, m, 4)
  {
    var shape := SlideSchema.shape;
    assert OptString(m, "background-image") by { assert Accepts(shape[2].schema, Get(m, shape[2].key)); }
    assert AcceptsFields(SlideSchema, m, 3);
    assert OptEnum(m, "background-size", BackgroundSizes) by { assert Accepts(shape[3].schema, Get(m, shape[3].key)); }
    assert AcceptsFields(SlideSchema, m, 4);
  }

  lemma SlideAttributesFieldsComplete1(m: map<string, Json>)
    requires OptString(m, "background-image") && OptEnum(m, "background-size", BackgroundSizes)
    requires AcceptsFields(SlideSchema, m, 4)
    ensures AcceptsFields(SlideSchema, m, 2)
  {
    assert AcceptsFields(SlideSchema, m, 3);
    assert AcceptsFields(SlideSchema, m, 2);
  }

  lemma SlideAttributesFieldsSound2(m: map<string, Json>)
    requires AcceptsFields(SlideSchema, m, 4)
    ensures OptString(m, "notes") && OptString(m, "html")
    ensures AcceptsFields(SlideSchema, m, 6)
  {
    var shape := SlideSchema.shape;
    assert OptString(m, "notes") by { assert Accepts(shape[4].schema, Get(m, shape[4].key)); }
    assert AcceptsFields(SlideSchema, m, 5);
    assert OptString(m, "html") by { assert Accepts(shape[5].schema, Get(m, shape[5].key)); }
    assert AcceptsFields(SlideSchema, m, 6);
  }

  lemma SlideAttributesFieldsComplete2(m: map<string, Json>)
    requires OptString(m, "notes") && OptString(m, "html")
    requires AcceptsFields(SlideSchema, m, 6)
    ensures AcceptsFields(SlideSchema, m, 4)
  {
    assert AcceptsFields(SlideSchema, m, 5);
    assert AcceptsFields(SlideSchema, m, 4);
  }

  lemma SlideAttributesFieldsSound3(m: map<string, Json>)
    requires AcceptsFields(SlideSchema, m, 6)
    ensures OptString(m, "markdown")
    ensures AcceptsFields(SlideSchema, m, 7)
  {
    var shape := SlideSchema.shape;
    assert OptString(m, "markdown") by { assert Accepts(shape[6].schema, Get(m, shape[6].key)); }
    assert AcceptsFields(SlideSchema, m, 7);
  }

  lemma SlideAttributesFieldsComplete3(m: map<string, Json>)
    requires OptString(m, "markdown")
    requires AcceptsFields(SlideSchema, m, 7)
    ensures AcceptsFields(SlideSchema, m, 6)
  {
    assert AcceptsFields(SlideSchema, m, 6);
  }

  lemma SlideAttributesPrefix(m: map<string, Json>)
    ensures AcceptsFields(SlideSchema, m, 0) <==> IsSlideAttributes(m) && AcceptsFields(SlideSchema, m, 7)
  {
    if AcceptsFields(SlideSchema, m, 0) {
      SlideAttributesFieldsSound0(m);
      SlideAttributesFieldsSound1(m);
      SlideAttributesFieldsSound2(m);
      SlideAttributesFieldsSound3(m);
    }
    if IsSlideAttributes(m) && AcceptsFields(SlideSchema, m, 7) {
      SlideAttributesFieldsComplete3(m);
      SlideAttributesFieldsComplete2(m);
      SlideAttributesFieldsComplete1(m);
      SlideAttributesFieldsComplete0(m);
    }
  }

  lemma SlideAttributesFlat()
    ensures forall k | 0 <= k < 7 :: Passthrough(SlideSchema.shape[k].schema)
  {
    var shape := SlideSchema.shape;
    forall k | 0 <= k < 7 ensures Passthrough(shape[k].schema) {
      if k == 0 {} else if k == 1 {} else if k == 2 {} else if k == 3 {} else if k == 4 {} else if k == 5 {} else {}
    }
  }

  lemma SlideAttributesKeySet()
    ensures KeysBetween(SlideSchema.shape, 0, 7) == SlideKeys - {"blocks"}
  {
    var shape := SlideSchema.shape;
    var keys := KeysBetween(shape, 0, 7);
    assert shape[0].key in keys && shape[1].key in keys && shape[2].key in keys && shape[3].key in keys && shape[4].key in keys && shape[5].key in keys && shape[6].key in keys;
    forall x | x in keys ensures x in SlideKeys - {"blocks"} {
      var k :| 0 <= k < 7 && shape[k].key == x;
      if k == 0 {} else if k == 1 {} else if k == 2 {} else if k == 3 {} else if k == 4 {} else if k == 5 {} else {}
    }
  }

  lemma DeckSettingsFieldsSound0(m: map<string, Json>)
    requires AcceptsFields(DeckSchema, m, 0)
    ensures ReqString(m, "title") && OptString(m, "description")
    ensures AcceptsFields(DeckSchema, m, 2)
  {
    var shape := DeckSchema.shape;
    assert ReqString(m, "title") by { assert Accepts(shape[0].schema, Get(m, shape[0].key)); }
    assert AcceptsFields(DeckSchema, m, 1);
    assert OptString(m, "description") by { assert Accepts(shape[1].schema, Get(m, shape[1].key)); }
    assert AcceptsFields(DeckSchema, m, 2);
  }

  lemma DeckSettingsFieldsComplete0(m: map<string, Json>)
    requires ReqString(m, "title") && OptString(m, "description")
    requires AcceptsFields(DeckSchema, m, 2)
    ensures AcceptsFields(DeckSchema, m, 0)
  {
    assert AcceptsFields(DeckSchema, m, 1);
    assert AcceptsFields(DeckSchema, m, 0);
  }

  lemma DeckSettingsFieldsSound1(m: map<string, Json>)
    requires AcceptsFields(DeckSchema, m, 2)
    ensures OptInt(m, "width") && OptInt(m, "height")
    ensures AcceptsFields(DeckSchema, m, 4)
  {
    var shape := DeckSchema.shape;
    assert OptInt(m, "width") by { assert Accepts(shape[2].schema, Get(m, shape[2].key)); }
    assert AcceptsFields(DeckSchema, m, 3);
    assert OptInt(m, "height") by { assert Accepts(shape[3].schema, Get(m, shape[3].key)); }
    assert AcceptsFields(DeckSchema, m, 4);
  }

  lemma DeckSettingsFieldsComplete1(m: map<string, Json>)
    requires OptInt(m, "width") && OptInt(m, "height")
    requires AcceptsFields(DeckSchema, m, 4)
    ensures AcceptsFields(DeckSchema, m, 2)
  {
    assert AcceptsFields(DeckSchema, m, 3);
    assert AcceptsFields(DeckSchema, m, 2);
  }

  lemma DeckSettingsFieldsSound2(m: map<string, Json>)
    requires AcceptsFields(DeckSchema, m, 4)
    ensures OptEnum(m, "visibility", Visibilities) && OptInt(m, "auto-slide-interval")
    ensures AcceptsFields(DeckSchema, m, 6)
  {
    var shape := DeckSchema.shape;
    assert OptEnum(m, "visibility", Visibilities) by { assert Accepts(shape[4].schema, Get(m, shape[4].key)); }
    assert AcceptsFields(DeckSchema, m, 5);
    assert OptInt(m, "auto-slide-interval") by { assert Accepts(shape[5].schema, Get(m, shape[5].key)); }
    assert AcceptsFields(DeckSchema, m, 6);
  }

  lemma DeckSettingsFieldsComplete2(m: map<string, Json>)
    requires OptEnum(m, "visibility", Visibilities) && OptInt(m, "auto-slide-interval")
    requires AcceptsFields(DeckSchema, m, 6)
    ensures AcceptsFields(DeckSchema, m, 4)
  {
    assert AcceptsFields(DeckSchema, m, 5);
    assert AcceptsFields(DeckSchema, m, 4);
  }

  lemma DeckSettingsFieldsSound3(m: map<string, Json>)
    requires AcceptsFields(DeckSchema, m, 6)
    ensures OptBool(m, "slide-number") && OptBool(m, "loop")
    ensures AcceptsFields(DeckSchema, m, 8)
  {
    var shape := DeckSchema.shape;
    assert OptBool(m, "slide-number") by { assert Accepts(shape[6].schema, Get(m, shape[6].key)); }
    assert AcceptsFields(DeckSchema, m, 7);
    assert OptBool(m, "loop") by { assert Accepts(shape[7].schema, Get(m, shape[7].key)); }
    assert AcceptsFields(DeckSchema, m, 8);
  }

  lemma DeckSettingsFieldsComplete3(m: map<string, Json>)
    requires OptBool(m, "slide-number") && OptBool(m, "loop")
    requires AcceptsFields(DeckSchema, m, 8)
    ensures AcceptsFields(DeckSchema, m, 6)
  {
    assert AcceptsFields(DeckSchema, m, 7);
    assert AcceptsFields(DeckSchema, m, 6);
  }

  lemma DeckSettingsFieldsSound4(m: map<string, Json>)
    requires AcceptsFields(DeckSchema, m, 8)
    ensures OptString(m, "css") && OptString(m, "theme-id")
    ensures AcceptsFields(DeckSchema, m, 10)
  {
    var shape := DeckSchema.shape;
    assert OptString(m, "css") by { assert Accepts(shape[8].schema, Get(m, shape[8].key)); }
    assert AcceptsFields(DeckSchema, m, 9);
    assert OptString(m, "theme-id") by { assert Accepts(shape[9].schema, Get(m, shape[9].key)); }
    assert AcceptsFields(DeckSchema, m, 10);
  }

  lemma DeckSettingsFieldsComplete4(m: map<string, Json>)
    requires OptString(m, "css") && OptString(m, "theme-id")
    requires AcceptsFields(DeckSchema, m, 10)
    ensures AcceptsFields(DeckSchema, m, 8)
  {
    assert AcceptsFields(DeckSchema, m, 9);
    assert AcceptsFields(DeckSchema, m, 8);
  }

  lemma DeckSettingsFieldsSound5(m: map<string, Json>)
    requires AcceptsFields(DeckSchema, m, 10)
    ensures OptEnum(m, "theme-color", ThemeColors)
    ensures AcceptsFields(DeckSchema, m, 11)
  {
    var shape := DeckSchema.shape;
    assert OptEnum(m, "theme-color", ThemeColors) by { assert Accepts(shape[10].schema, Get(m, shape[10].key)); }
    assert AcceptsFields(DeckSchema, m, 11);
  }

  lemma DeckSettingsFieldsComplete5(m: map<string, Json>)
    requires OptEnum(m, "theme-color", ThemeColors)
    requires AcceptsFields(DeckSchema, m, 11)
    ensures AcceptsFields(DeckSchema, m, 10)
  {
    assert AcceptsFields(DeckSchema, m, 10);
  }

  lemma DeckSettingsFieldsSound6(m: map<string, Json>)
    requires AcceptsFields(DeckSchema, m, 11)
    ensures OptEnum(m, "theme-font", ThemeFonts)
    ensures AcceptsFields(DeckSchema, m, 12)
  {
    var shape := DeckSchema.shape;
    assert OptEnum(m, "theme-font", ThemeFonts) by { assert Accepts(shape[11].schema, Get(m, shape[11].key)); }
    assert AcceptsFields(DeckSchema, m, 12);
  }

  lemma DeckSettingsFieldsComplete6(m: map<string, Json>)
    requires OptEnum(m, "theme-font", ThemeFonts)
    requires AcceptsFields(DeckSchema, m, 12)
    ensures AcceptsFields(DeckSchema, m, 11)
  {
    assert AcceptsFields(DeckSchema, m, 11);
  }

  lemma DeckSettingsFieldsSound7(m: map<string, Json>)
    requires AcceptsFields(DeckSchema, m, 12)
    ensures OptEnum(m, "transition", Transitions)
    ensures AcceptsFields(DeckSchema, m, 13)
  {
    var shape := DeckSchema.shape;
    assert OptEnum(m, "transition", Transitions) by { assert Accepts(shape[12].schema, Get(m, shape[12].key)); }
    assert AcceptsFields(DeckSchema, m, 13);
  }

  lemma DeckSettingsFieldsComplete7(m: map<string, Json>)
    requires OptEnum(m, "transition", Transitions)
    requires AcceptsFields(DeckSchema, m, 13)
    ensures AcceptsFields(DeckSchema, m, 12)
  {
    assert AcceptsFields(DeckSchema, m, 12);
  }

  lemma DeckSettingsPrefix(m: map<string, Json>)
    ensures AcceptsFields(DeckSchema, m, 0) <==> IsDeckSettings(m) && AcceptsFields(DeckSchema, m, 13)
  {
    if AcceptsFields(DeckSchema, m, 0) {
      DeckSettingsFieldsSound0(m);
      DeckSettingsFieldsSound1(m);
      DeckSettingsFieldsSound2(m);
      DeckSettingsFieldsSound3(m);
      DeckSettingsFieldsSound4(m);
      DeckSettingsFieldsSound5(m);
      DeckSettingsFieldsSound6(m);
      DeckSettingsFieldsSound7(m);
    }
    if IsDeckSettings(m) && AcceptsFields(DeckSchema, m, 13) {
      DeckSettingsFieldsComplete7(m);
      DeckSettingsFieldsComplete6(m);
      DeckSettingsFieldsComplete5(m);
      DeckSettingsFieldsComplete4(m);
      DeckSettingsFieldsComplete3(m);
      DeckSettingsFieldsComplete2(m);
      DeckSettingsFieldsComplete1(m);
      DeckSettingsFieldsComplete0(m);
    }
  }

  lemma DeckSettingsFlat()
    ensures forall k | 0 <= k < 13 :: Passthrough(DeckSchema.shape[k].schema)
  {
    var shape := DeckSchema.shape;
    forall k | 0 <= k < 13 ensures Passthrough(shape[k].schema) {
      if k == 0 {} else if k == 1 {} else if k == 2 {} else if k == 3 {} else if k == 4 {} else if k == 5 {} else if k == 6 {} else if k == 7 {} else if k == 8 {} else if k == 9 {} else if k == 10 {} else if k == 11 {} else {}
    }
  }

  lemma DeckSettingsKeySet()
    ensures KeysBetween(DeckSchema.shape, 0, 13) == DeckKeys - {"slides"}
  {
    var shape := DeckSchema.shape;
    KeysBetweenSplit(shape, 0, 6, 13);
    DeckSettingsKeySetLow();
    DeckSettingsKeySetHigh();
  }

  lemma DeckSettingsKeySetLow()
    ensures KeysBetween(DeckSchema.shape, 0, 6) == {"title", "description", "width", "height", "visibility", "auto-slide-interval"}
  {
    var shape := DeckSchema.shape;
    var keys := KeysBetween(shape, 0, 6);
    assert shape[0].key in keys && shape[1].key in keys && shape[2].key in keys && shape[3].key in keys && shape[4].key in keys && shape[5].key in keys;
    forall x | x in keys ensures x in {"title", "description", "width", "height", "visibility", "auto-slide-interval"} {
      var k :| 0 <= k < 6 && shape[k].key == x;
      if k == 0 {} else if k == 1 {} else if k == 2 {} else if k == 3 {} else if k == 4 {} else {}
    }
  }

  lemma DeckSettingsKeySetHigh()
    ensures KeysBetween(DeckSchema.shape, 6, 13) == {"slide-number", "loop", "css", "theme-id", "theme-color", "theme-font", "transition"}
  {
    var shape := DeckSchema.shape;
    var keys := KeysBetween(shape, 6, 13);
    assert shape[6].key in keys && shape[7].key in keys && shape[8].key in keys && shape[9].key in keys && shape[10].key in keys && shape[11].key in keys && shape[12].key in keys;
    forall x | x in keys ensures x in {"slide-number", "loop", "css", "theme-id", "theme-color", "theme-font", "transition"} {
      var k :| 6 <= k < 13 && shape[k].key == x;
      if k == 6 {} else if k == 7 {} else if k == 8 {} else if k == 9 {} else if k == 10 {} else if k == 11 {} else {}
    }
  }

}
