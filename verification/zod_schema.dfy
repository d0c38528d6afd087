/**
 * The deck-definition schema of src/zod-schema.ts, one constant per schema constant there, written
 * with the combinators of module Zod. `ParseDeck` is `deckSchema.parse`.
 */
module ZodSchema {
  import opened Json
  import opened Zod

  const TextFormats: seq<string> := ["h1", "h2", "h3", "p", "pre"]
  const TextAligns: seq<string> := ["left", "center", "right", "justify"]
  const CodeThemes: seq<string> := [
    "monokai", "a11y-dark", "a11y-light", "ascetic", "darcula", "far", "github-gist", "ir-black",
    "obsidian", "seti", "solarized-dark", "solarized-light", "sunburst", "tomorrow", "xcode",
    "zenburn"]
  const AnimationTypes: seq<string> := [
    "fade-in", "fade-out", "slide-up", "slide-down", "slide-right", "slide-left", "scale-up",
    "scale-down"]
  const AnimationTriggers: seq<string> := ["auto", "click", "hover"]
  const BackgroundSizes: seq<string> := ["cover", "contain"]
  const Visibilities: seq<string> := ["all", "self", "team"]
  const ThemeColors: seq<string> := ["white-blue", "black-blue"]
  const ThemeFonts: seq<string> := [
    "montserrat", "asul", "helvetica", "josefine", "league", "merriweather", "news", "opensans",
    "overpass", "palatino", "quicksand", "sketch"]
  const Transitions: seq<string> := ["slide", "none", "fade", "concave", "convex"]

  const TextBlockSchema: Schema := ZObject([
    Field("type", ZLiteral("text")),
    Field("value", ZString),
    Field("format", ZOptional(ZEnum(TextFormats))),
    Field("align", ZOptional(ZEnum(TextAligns))),
    Field("padding", ZOptional(ZNumber(true))),
    Field("color", ZOptional(ZString)),
    Field("font-size", ZOptional(ZString))])

  const ImageBlockSchema: Schema := ZObject([
    Field("type", ZLiteral("image")),
    Field("value", ZString)])

  const IframeBlockSchema: Schema := ZObject([
    Field("type", ZLiteral("iframe")),
    Field("value", ZString)])

  const CodeBlockSchema: Schema := ZObject([
    Field("type", ZLiteral("code")),
    Field("value", ZString),
    Field("language", ZOptional(ZString)),
    Field("word-wrap", ZOptional(ZBoolean)),
    Field("line-numbers", ZOptional(ZUnion([ZBoolean, ZString]))),
    Field("theme", ZOptional(ZEnum(CodeThemes)))])

  const TableBlockSchema: Schema := ZObject([
    Field("type", ZLiteral("table")),
    Field("data", ZOptional(ZArray(ZArray(ZAny)))),
    Field("html", ZOptional(ZString)),
    Field("padding", ZOptional(ZNumber(true))),
    Field("text-color", ZOptional(ZString)),
    Field("border-width", ZOptional(ZNumber(true))),
    Field("border-color", ZOptional(ZString))])

  const BaseBlockSchema: Schema := ZObject([
    Field("x", ZOptional(ZNumber(true))),
    Field("y", ZOptional(ZNumber(true))),
    Field("width", ZOptional(ZNumber(true))),
    Field("height", ZOptional(ZNumber(true))),
    Field("class", ZOptional(ZString)),
    Field("data", ZOptional(ZRecordOfAny)),
    Field("animation-type", ZOptional(ZEnum(AnimationTypes))),
    Field("animation-trigger", ZOptional(ZEnum(AnimationTriggers))),
    Field("animation-duration", ZOptional(ZNumber(false))),
    Field("animation-delay", ZOptional(ZNumber(false)))])

  const VariantSchema: Schema :=
    ZUnion([TextBlockSchema, ImageBlockSchema, IframeBlockSchema, CodeBlockSchema, TableBlockSchema])

  const BlockSchema: Schema := ZIntersection(BaseBlockSchema, VariantSchema)

  const SlideSchema: Schema := ZObject([
    Field("id", ZOptional(ZString)),
    Field("background-color", ZOptional(ZString)),
    Field("background-image", ZOptional(ZString)),
    Field("background-size", ZOptional(ZEnum(BackgroundSizes))),
    Field("notes", ZOptional(ZString)),
    Field("html", ZOptional(ZString)),
    Field("markdown", ZOptional(ZString)),
    Field("blocks", ZOptional(ZArray(BlockSchema)))])

  /** A slide, or a vertical stack: an array of slides. */
  const SlideEntrySchema: Schema := ZUnion([SlideSchema, ZArray(SlideSchema)])

  const SlidesSchema: Schema := ZLazy(ZArray(SlideEntrySchema))

  const DeckSchema: Schema := ZObject([
    Field("title", ZString),
    Field("description", ZOptional(ZString)),
    Field("width", ZOptional(ZNumber(true))),
    Field("height", ZOptional(ZNumber(true))),
    Field("visibility", ZOptional(ZEnum(Visibilities))),
    Field("auto-slide-interval", ZOptional(ZNumber(true))),
    Field("slide-number", ZOptional(ZBoolean)),
    Field("loop", ZOptional(ZBoolean)),
    Field("css", ZOptional(ZString)),
    Field("theme-id", ZOptional(ZString)),
    Field("theme-color", ZOptional(ZEnum(ThemeColors))),
    Field("theme-font", ZOptional(ZEnum(ThemeFonts))),
    Field("transition", ZOptional(ZEnum(Transitions))),
    Field("slides", SlidesSchema)])

  datatype Result<T, E> = Success(value: T) | Failure(error: E)

  /**
   * `deckSchema.parse(deck)`: the parsed deck when the parse is valid, otherwise the issues Zod
   * throws in its ZodError (never an empty list).
   */
  function ParseDeck(deck: Json): (r: Result<Json, seq<Issue>>)
    ensures r.Failure? ==> r.error != []
  {
    var o := Parse(DeckSchema, Some(deck), []);
    if o.status == Valid then Success(o.value.value) else Failure(o.issues)
  }
}
