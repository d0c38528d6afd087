/**
 * What the deck schema of src/zod-schema.ts enforces, stated field by field over JSON values, and
 * the document `deckSchema.parse` returns for an accepted deck: the same tree restricted to the
 * declared keys (a plain `z.object` drops every other key), with no default filled in.
 */
module DeckRules {
  import opened Json
  import opened ZodSchema

  // Field kinds. An absent key is always allowed by the optional kinds.

  predicate OptString(m: map<string, Json>, key: string) {
    key in m ==> m[key].JString?
  }

  predicate OptBool(m: map<string, Json>, key: string) {
    key in m ==> m[key].JBool?
  }

  /** Any number (z.number()). */
  predicate OptNumber(m: map<string, Json>, key: string) {
    key in m ==> m[key].JNumber?
  }

  /** An integral number (z.number().int()). */
  predicate OptInt(m: map<string, Json>, key: string) {
    key in m ==> m[key].JNumber? && IsInteger(m[key].n)
  }

  /** One of a closed list of strings (z.enum). */
  predicate OptEnum(m: map<string, Json>, key: string, allowed: seq<string>) {
    key in m ==> m[key].JString? && m[key].s in allowed
  }

  predicate ReqString(m: map<string, Json>, key: string) {
    key in m && m[key].JString?
  }

  predicate HasTag(m: map<string, Json>, tag: string) {
    "type" in m && m["type"] == JString(tag)
  }

  // Blocks

  /** The `type` tags of the five block variants, in the order the union tries them. */
  const BlockTypes: seq<string> := ["text", "image", "iframe", "code", "table"]

  /** The attributes every block shares (src/zod-schema.ts:61-83). */
  predicate IsBaseBlock(m: map<string, Json>) {
    OptInt(m, "x") && OptInt(m, "y") && OptInt(m, "width") && OptInt(m, "height")
    && OptString(m, "class")
    && ("data" in m ==> m["data"].JObject?)
    && OptEnum(m, "animation-type", AnimationTypes)
    && OptEnum(m, "animation-trigger", AnimationTriggers)
    && OptNumber(m, "animation-duration") && OptNumber(m, "animation-delay")
  }

  predicate IsTextBlock(m: map<string, Json>) {
    HasTag(m, "text") && ReqString(m, "value")
    && OptEnum(m, "format", TextFormats) && OptEnum(m, "align", TextAligns)
    && OptInt(m, "padding") && OptString(m, "color") && OptString(m, "font-size")
  }

  predicate IsImageBlock(m: map<string, Json>) {
    HasTag(m, "image") && ReqString(m, "value")
  }

  predicate IsIframeBlock(m: map<string, Json>) {
    HasTag(m, "iframe") && ReqString(m, "value")
  }

  predicate IsCodeBlock(m: map<string, Json>) {
    HasTag(m, "code") && ReqString(m, "value")
    && OptString(m, "language") && OptBool(m, "word-wrap")
    && ("line-numbers" in m ==> m["line-numbers"].JBool? || m["line-numbers"].JString?)
    && OptEnum(m, "theme", CodeThemes)
  }

  predicate IsTableBlock(m: map<string, Json>) {
    HasTag(m, "table")
    && ("data" in m ==> m["data"].JArray? && forall row | row in m["data"].items :: row.JArray?)
    && OptString(m, "html") && OptInt(m, "padding") && OptString(m, "text-color")
    && OptInt(m, "border-width") && OptString(m, "border-color")
  }

  predicate IsVariant(m: map<string, Json>) {
    IsTextBlock(m) || IsImageBlock(m) || IsIframeBlock(m) || IsCodeBlock(m) || IsTableBlock(m)
  }

  /** A block satisfies the shared attributes and one of the five variants (src/zod-schema.ts:85-94). */
  predicate IsBlock(j: Json) {
    j.JObject? && IsBaseBlock(j.fields) && IsVariant(j.fields)
  }

  // Slides, stacks and the deck

  /** The attributes of a slide other than its blocks (src/zod-schema.ts:96-103). */
  predicate IsSlideAttributes(m: map<string, Json>) {
    OptString(m, "id") && OptString(m, "background-color") && OptString(m, "background-image")
    && OptEnum(m, "background-size", BackgroundSizes)
    && OptString(m, "notes") && OptString(m, "html") && OptString(m, "markdown")
  }

  predicate IsSlide(j: Json) {
    j.JObject? && IsSlideAttributes(j.fields)
    && ("blocks" in j.fields ==>
          j.fields["blocks"].JArray? && forall b | b in j.fields["blocks"].items :: IsBlock(b))
  }

  /** A `slides` entry: a slide, or a vertical stack of slides. */
  predicate IsSlideEntry(j: Json) {
    IsSlide(j) || (j.JArray? && forall s | s in j.items :: IsSlide(s))
  }

  /** The deck's settings: every top-level key except `slides` (src/zod-schema.ts:116-144). */
  predicate IsDeckSettings(m: map<string, Json>) {
    ReqString(m, "title") && OptString(m, "description")
    && OptInt(m, "width") && OptInt(m, "height")
    && OptEnum(m, "visibility", Visibilities)
    && OptInt(m, "auto-slide-interval")
    && OptBool(m, "slide-number") && OptBool(m, "loop")
    && OptString(m, "css") && OptString(m, "theme-id")
    && OptEnum(m, "theme-color", ThemeColors) && OptEnum(m, "theme-font", ThemeFonts)
    && OptEnum(m, "transition", Transitions)
  }

  predicate IsDeck(j: Json) {
    j.JObject? && IsDeckSettings(j.fields)
    && "slides" in j.fields && j.fields["slides"].JArray?
    && forall e | e in j.fields["slides"].items :: IsSlideEntry(e)
  }

  // Declared keys and the parsed output

  const BaseBlockKeys: set<string> := {
    "x", "y", "width", "height", "class", "data", "animation-type", "animation-trigger",
    "animation-duration", "animation-delay"}

  /** The keys the variant with tag `tag` declares. */
  function VariantKeys(tag: string): set<string> {
    match tag
    case "text" => {"type", "value", "format", "align", "padding", "color", "font-size"}
    case "image" => {"type", "value"}
    case "iframe" => {"type", "value"}
    case "code" => {"type", "value", "language", "word-wrap", "line-numbers", "theme"}
    case "table" => {"type", "data", "html", "padding", "text-color", "border-width", "border-color"}
    case _ => {}
  }

  const SlideKeys: set<string> := {
    "id", "background-color", "background-image", "background-size", "notes", "html", "markdown",
    "blocks"}

  const DeckKeys: set<string> := {
    "title", "description", "width", "height", "visibility", "auto-slide-interval", "slide-number",
    "loop", "css", "theme-id", "theme-color", "theme-font", "transition", "slides"}

  /** The parsed block: its entries under the shared keys and its variant's keys. */
  function BlockOutput(j: Json): (r: Json)
    requires IsBlock(j)
    ensures r.JObject? && r.fields.Keys == j.fields.Keys * (BaseBlockKeys + VariantKeys(j.fields["type"].s))
    ensures forall k | k in r.fields :: r.fields[k] == j.fields[k]
  {
    JObject(Restrict(j.fields, BaseBlockKeys + VariantKeys(j.fields["type"].s)))
  }

  /** The parsed slide: its declared entries, with every block replaced by its output. */
  function SlideOutput(j: Json): (r: Json)
    requires IsSlide(j)
    ensures r.JObject? && r.fields.Keys == j.fields.Keys * SlideKeys
    ensures forall k | k in r.fields && k != "blocks" :: r.fields[k] == j.fields[k]
  {
    var m := j.fields;
    var kept := Restrict(m, SlideKeys - {"blocks"});
    if "blocks" in m then
      var blocks := m["blocks"].items;
      JObject(kept["blocks" := JArray(seq(|blocks|, k requires 0 <= k < |blocks| => BlockOutput(blocks[k])))])
    else JObject(kept)
  }

  /** The parsed `slides` entry: a parsed slide, or a stack of parsed slides. */
  function SlideEntryOutput(j: Json): (r: Json)
    requires IsSlideEntry(j)
    ensures r.JArray? <==> j.JArray?
    ensures r.JArray? ==> |r.items| == |j.items|
  {
    if j.JArray? then JArray(seq(|j.items|, k requires 0 <= k < |j.items| => SlideOutput(j.items[k])))
    else SlideOutput(j)
  }

  /** The deck `deckSchema.parse` returns for an accepted deck. */
  function DeckOutput(j: Json): (r: Json)
    requires IsDeck(j)
    ensures r.JObject? && r.fields.Keys == j.fields.Keys * DeckKeys
    ensures forall k | k in r.fields && k != "slides" :: r.fields[k] == j.fields[k]
    ensures r.fields["slides"].JArray? && |r.fields["slides"].items| == |j.fields["slides"].items|
  {
    var m := j.fields;
    var entries := m["slides"].items;
    JObject(Restrict(m, DeckKeys - {"slides"})[
      "slides" := JArray(seq(|entries|, k requires 0 <= k < |entries| => SlideEntryOutput(entries[k])))])
  }
}
