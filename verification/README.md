# Deck document validator — a Dafny model

slides-mcp takes a presentation as a JSON document and accepts or rejects it with a Zod schema
(`src/zod-schema.ts`) before building the URL of its own `/create-presentation` page, which hands
the deck to slides.com. This project models that schema and the
part of Zod it relies on, then proves what the schema accepts and what it returns.

The deck schema is:

- `deckSchema`: a required string `title`, twelve optional settings, and a required `slides` array.
- `slidesSchema`: each entry of `slides` is a slide object or a one-level array of slides (a vertical stack).
- `slideSchema`: seven optional attributes and optional `blocks`.
- `blockSchema`: the intersection of the shared `baseBlockSchema` with the union of the
  `text`, `image`, `iframe`, `code` and `table` variants.

The project has eight modules:

- `Json` (`json.dfy`): JSON values. Numbers are reals, and `IsInteger` stands for `Number.isInteger`.
- `Zod` (`zod.dfy`): an interpreter for the Zod v3 combinators the schema uses, in two forms.
  - `Parse` is the operational form. It follows Zod's `_parse`: it returns a valid, dirty or
    aborted status, the issues with their paths, and the output value. Objects drop undeclared
    keys, unions pick their first valid option, and intersections merge both outputs.
  - `Accepts` and `Strip` are the declarative form: which values a schema accepts, and what it
    returns for them.
  - `ParseMeaning` proves that the two forms agree for every schema.
- `ZodSchema` (`zod_schema.dfy`): the schema constants, field by field, in the source's order,
  and `ParseDeck`, which is `deckSchema.parse`.
- `DeckRules` (`deck_rules.dfy`): the same rules written directly over JSON.
  - `IsBlock`, `IsSlide`, `IsSlideEntry` and `IsDeck` say what is valid.
  - `BlockOutput`, `SlideOutput`, `SlideEntryOutput` and `DeckOutput` give the parsed value.
- `Conformance` and `DeckConformance` prove that each schema accepts exactly its rule and
  returns exactly its output.
  - `Conformance` covers the object schemas field by field.
  - `DeckConformance` covers the union, the intersection, the arrays and the lazy `slides`.
- `DeckProperties` (`deck_properties.dfy`): what follows for users of `deckSchema`:
  - required fields;
  - one-level stacks;
  - block tags, and how an unknown tag is reported;
  - closed enums;
  - integer fields;
  - the `data` conflict on table blocks.
- `DeckOutputs` (`deck_outputs.dfy`): the parsed deck carries no defaults, and parsing it again
  changes nothing.

Two behaviours of the code are worth stating outright:

- **No defaults.** The documentation string the tool serves lists defaults for the deck
  (`width` 960, `height` 700, `auto-slide-interval` 0, `slide-number` and `loop` false). The
  schema has `.optional()` and no `.default()` for those fields, so an absent field stays absent
  in the parsed deck (`DeckOutputs.NoDefaults`). Undeclared keys are dropped, because every
  schema is a plain `z.object`.
- **Unknown block tag.** `blockSchema`'s own parse of a block whose `type` is not one of the five
  tags fails with one invalid_union issue at the block's path, holding the issues of all five
  variants (`DeckProperties.UnknownTagReported`). Inside a deck that issue is not what the caller
  sees at the top: the block aborts its slide, and the slide-or-stack union of the `slides` entry
  reports one invalid_union at the entry's path `slides[k]`, holding the issue lists of its two
  options (`DeckProperties.UnknownTagInEntry`, `DeckProperties.UnknownTagInDeck`).

## Model

| member | source | states |
|---|---|---|
| Zod.Parse | src/zod-schema.ts:3-146 | Zod's parse of a value is valid exactly when it raises no issue. An aborted parse has no output. A defined value that is not rejected outright keeps a defined output. |
| Zod.ParseItems | src/zod-schema.ts:107-114 | An array parse is valid exactly when no element raises an issue. Unless it aborts, it has one output per element. |
| Zod.ParseFields | src/zod-schema.ts:3-11 | An object parse is valid exactly when no declared field raises an issue. |
| Zod.ParseUnion | src/zod-schema.ts:87-93 | A union's parse is valid exactly when it raises no issue. An aborted union has no output. A union that does not abort outputs a value. |
| Zod.Merge | src/zod-schema.ts:85-94 | The two sides of an intersection merge to themselves when equal. Two different objects merge to an object holding the keys of both. |
| Zod.ParseMeaning | src/zod-schema.ts:3-146 | For every schema, Zod's parse is valid exactly when the declarative `Accepts` holds, and its output is then `Strip`. |
| Zod.ArrayMeaning | src/zod-schema.ts:104 | For `z.array`: valid exactly when every element is accepted. The output is the element-wise stripped array. |
| Zod.ItemsMeaning | src/zod-schema.ts:108-113 | The item-by-item array parse is valid exactly when every remaining item is accepted. Each output item is that item's stripped value. |
| Zod.FieldsMeaning | src/zod-schema.ts:116-146 | The field-by-field object parse is valid exactly when every remaining field accepts its entry. Its output entries are `StripFields`. |
| Zod.UnionMeaning | src/zod-schema.ts:87-93 | The option-by-option union parse is valid exactly when some remaining option accepts. Its output is then that of the first accepting option. |
| Zod.FieldsAbort | src/zod-schema.ts:116-117 | An object's parse aborts when any one of its fields aborts. |
| Zod.ItemsAbort | src/zod-schema.ts:104 | An array's parse aborts when any one of its items aborts. |
| Zod.ItemsIssues | src/zod-schema.ts:108-113 | An array's parse reports every issue of every item. |
| Zod.FieldsIssues | src/zod-schema.ts:116-146 | An object's parse reports every issue of every field. |
| Zod.UnionAllAbort | src/zod-schema.ts:87-93 | When every option of a union aborts, the union aborts with exactly one invalid_union issue at its own path, holding one issue list per option. |
| Zod.StripUnionAt | src/zod-schema.ts:87-93 | A union outputs what its first accepting option outputs. |
| Zod.PassthroughStrip | src/zod-schema.ts:28 | A schema with no object or intersection inside it returns what it accepts unchanged. |
| Zod.StripFlatFields | src/zod-schema.ts:61-83 | A run of pass-through fields contributes the input's entries under their keys, unchanged. |
| Zod.FlatObjectStrip | src/zod-schema.ts:3-11 | An object schema of pass-through fields outputs the accepted object restricted to its declared keys. Other keys are dropped. |
| Zod.MergeRestrictions | src/zod-schema.ts:85-94 | Two restrictions of one object always merge, to its restriction to both key sets. |
| ZodSchema.TextFormats | src/zod-schema.ts:6 | The five `format` strings of a text block. |
| ZodSchema.TextAligns | src/zod-schema.ts:7 | The four `align` strings of a text block. |
| ZodSchema.CodeThemes | src/zod-schema.ts:29-48 | The sixteen `theme` strings of a code block, in the source's order. |
| ZodSchema.AnimationTypes | src/zod-schema.ts:68-79 | The eight `animation-type` strings. |
| ZodSchema.AnimationTriggers | src/zod-schema.ts:80 | The three `animation-trigger` strings. |
| ZodSchema.BackgroundSizes | src/zod-schema.ts:100 | The two `background-size` strings of a slide. |
| ZodSchema.Visibilities | src/zod-schema.ts:121 | The three `visibility` strings of a deck. |
| ZodSchema.ThemeColors | src/zod-schema.ts:127 | The two `theme-color` strings. |
| ZodSchema.ThemeFonts | src/zod-schema.ts:128-143 | The twelve `theme-font` strings. |
| ZodSchema.Transitions | src/zod-schema.ts:144 | The five `transition` strings. |
| ZodSchema.TextBlockSchema | src/zod-schema.ts:3-11 | `textBlockSchema`: the `text` literal, a required string `value`, and optional `format`, `align`, integer `padding`, `color` and `font-size`. |
| ZodSchema.ImageBlockSchema | src/zod-schema.ts:13-16 | `imageBlockSchema`: the `image` literal and a required string `value`. |
| ZodSchema.IframeBlockSchema | src/zod-schema.ts:18-21 | `iframeBlockSchema`: the `iframe` literal and a required string `value`. |
| ZodSchema.CodeBlockSchema | src/zod-schema.ts:23-49 | `codeBlockSchema`: the `code` literal, a required string `value`, and optional `language`, boolean `word-wrap`, boolean-or-string `line-numbers` and enum `theme`. |
| ZodSchema.TableBlockSchema | src/zod-schema.ts:51-59 | `tableBlockSchema`: the `table` literal, and optional array-of-arrays `data`, `html`, integer `padding`, `text-color`, integer `border-width` and `border-color`. |
| ZodSchema.BaseBlockSchema | src/zod-schema.ts:61-83 | `baseBlockSchema`: optional integer `x`, `y`, `width` and `height`, `class`, record `data`, the two animation enums, and any-number `animation-duration` and `animation-delay`. |
| ZodSchema.VariantSchema | src/zod-schema.ts:87-93 | The union of the five variants, in the source's order. |
| ZodSchema.BlockSchema | src/zod-schema.ts:85-94 | `blockSchema`: the intersection of the shared schema and the variant union. |
| ZodSchema.SlideSchema | src/zod-schema.ts:96-105 | `slideSchema`: seven optional string or enum attributes and optional `blocks`, an array of blocks. |
| ZodSchema.SlideEntrySchema | src/zod-schema.ts:109-112 | A `slides` entry: the union of a slide and an array of slides. |
| ZodSchema.SlidesSchema | src/zod-schema.ts:107-114 | `slidesSchema`: a lazy array of slide entries. |
| ZodSchema.DeckSchema | src/zod-schema.ts:116-146 | `deckSchema`: the fourteen fields in the source's order, `title` and `slides` required. |
| ZodSchema.ParseDeck | src/zod-schema.ts:116-146 | `deckSchema.parse` returns the parsed deck, or a non-empty list of issues. |
| DeckRules.IsBaseBlock | src/zod-schema.ts:61-83 | The shared block attributes written directly over JSON: each present key has its declared type, integer or enum. |
| DeckRules.IsTextBlock | src/zod-schema.ts:3-11 | A text block: tag `text`, string `value`, and each optional key of its declared type. |
| DeckRules.IsImageBlock | src/zod-schema.ts:13-16 | An image block: tag `image` and string `value`. |
| DeckRules.IsIframeBlock | src/zod-schema.ts:18-21 | An iframe block: tag `iframe` and string `value`. |
| DeckRules.IsCodeBlock | src/zod-schema.ts:23-49 | A code block: tag `code`, string `value`, and each optional key of its declared type. |
| DeckRules.IsTableBlock | src/zod-schema.ts:51-59 | A table block: tag `table`, and each optional key of its declared type. |
| DeckRules.IsBlock | src/zod-schema.ts:85-94 | A block: an object satisfying the shared attributes and one of the five variants. |
| DeckRules.IsSlideAttributes | src/zod-schema.ts:96-103 | The seven slide attributes, each absent or of its declared type. |
| DeckRules.IsSlide | src/zod-schema.ts:96-105 | A slide: an object with valid attributes whose `blocks`, when present, is an array of blocks. |
| DeckRules.IsSlideEntry | src/zod-schema.ts:109-112 | A `slides` entry: a slide, or an array of slides. |
| DeckRules.IsDeckSettings | src/zod-schema.ts:117-144 | The thirteen deck settings including `title`: a string `title`, and each optional key of its declared type. |
| DeckRules.IsDeck | src/zod-schema.ts:116-146 | A deck: an object with valid settings and a `slides` array of entries. |
| DeckRules.BlockOutput | src/zod-schema.ts:85-94 | A parsed block is an object whose keys are the block's own keys among the shared and the variant's declared keys, with the same values. |
| DeckRules.SlideOutput | src/zod-schema.ts:96-105 | A parsed slide keeps exactly its declared keys. The seven attributes are unchanged. |
| DeckRules.SlideEntryOutput | src/zod-schema.ts:107-114 | A parsed entry is a stack exactly when the input was a stack, with as many slides. |
| DeckRules.DeckOutput | src/zod-schema.ts:116-146 | A parsed deck keeps exactly its declared keys. Every setting is unchanged, and `slides` keeps its number of entries. |
| Conformance.LineNumbersField | src/zod-schema.ts:28 | Optional `line-numbers` accepts exactly an absent value, a boolean or a string. |
| Conformance.TableDataField | src/zod-schema.ts:53 | Optional table `data` accepts exactly an absent value or an array of arrays. |
| Conformance.TextBlockConforms | src/zod-schema.ts:3-11 | `textBlockSchema` accepts exactly `IsTextBlock`. Its output is the object restricted to the text keys. |
| Conformance.ImageBlockConforms | src/zod-schema.ts:13-16 | `imageBlockSchema` accepts exactly `IsImageBlock`. Its output is the object restricted to `type` and `value`. |
| Conformance.IframeBlockConforms | src/zod-schema.ts:18-21 | `iframeBlockSchema` accepts exactly `IsIframeBlock`. Its output is the object restricted to `type` and `value`. |
| Conformance.CodeBlockConforms | src/zod-schema.ts:23-49 | `codeBlockSchema` accepts exactly `IsCodeBlock`. Its output is the object restricted to the code keys. |
| Conformance.TableBlockConforms | src/zod-schema.ts:51-59 | `tableBlockSchema` accepts exactly `IsTableBlock`. Its output is the object restricted to the table keys. |
| Conformance.BaseBlockConforms | src/zod-schema.ts:61-83 | `baseBlockSchema` accepts exactly `IsBaseBlock`. Its output is the object restricted to the ten shared keys. |
| Conformance.SlideAttributesPrefix | src/zod-schema.ts:96-103 | The first seven fields of `slideSchema` accept exactly the `IsSlideAttributes` objects. |
| Conformance.DeckSettingsPrefix | src/zod-schema.ts:116-144 | The first thirteen fields of `deckSchema` accept exactly the `IsDeckSettings` objects. |
| DeckConformance.VariantsExclusive | src/zod-schema.ts:4 | No object satisfies two of the five variant rules, because their tags differ. |
| DeckConformance.VariantOption | src/zod-schema.ts:87-93 | Option k of the union accepts only variant blocks tagged with the k-th tag. |
| DeckConformance.VariantComplete | src/zod-schema.ts:87-93 | Every block satisfying one variant rule is accepted by the union. |
| DeckConformance.VariantAccepts | src/zod-schema.ts:87-93 | The union accepts an object exactly when one of the five variant rules holds. |
| DeckConformance.EarlierVariantsReject | src/zod-schema.ts:87-93 | The options before the one for a block's tag reject that block. |
| DeckConformance.VariantStripAt | src/zod-schema.ts:87-93 | The union's output for a block of variant k is option k's output. |
| DeckConformance.VariantStrip | src/zod-schema.ts:87-93 | The union outputs a variant block restricted to its variant's keys. |
| DeckConformance.BlockConforms | src/zod-schema.ts:85-94 | `blockSchema` accepts exactly `IsBlock` (base and a variant). Its output is `BlockOutput`. |
| DeckConformance.BlockListConforms | src/zod-schema.ts:104 | `z.array(blockSchema)` accepts exactly arrays of blocks and outputs each block's `BlockOutput`. |
| DeckConformance.SlideBlocksField | src/zod-schema.ts:104 | Optional `blocks` accepts exactly an absent value or an array of blocks. It adds the parsed blocks to the output. |
| DeckConformance.SlideAccepts | src/zod-schema.ts:96-105 | `slideSchema` accepts exactly `IsSlide`. |
| DeckConformance.SlideAttributesStrip | src/zod-schema.ts:96-103 | The seven attributes of an accepted slide pass into the output unchanged. |
| DeckConformance.SlideStrip | src/zod-schema.ts:96-105 | The output of an accepted slide is `SlideOutput`. |
| DeckConformance.SlideConforms | src/zod-schema.ts:96-105 | `slideSchema` accepts exactly `IsSlide` and outputs `SlideOutput`. |
| DeckConformance.StackConforms | src/zod-schema.ts:111 | A vertical stack accepts exactly arrays of slides and outputs each slide's `SlideOutput`. |
| DeckConformance.SlideEntryConforms | src/zod-schema.ts:109-112 | A `slides` entry is accepted exactly when it is a slide or a stack of slides. Its output is `SlideEntryOutput`. |
| DeckConformance.EntriesConforms | src/zod-schema.ts:107-114 | `slidesSchema` accepts exactly arrays of slide entries and outputs each entry's `SlideEntryOutput`. |
| DeckConformance.DeckSlidesField | src/zod-schema.ts:145 | The required `slides` accepts exactly an array of slide entries. It adds the parsed entries to the output. |
| DeckConformance.DeckAccepts | src/zod-schema.ts:116-146 | `deckSchema` accepts exactly `IsDeck`. |
| DeckConformance.DeckSettingsStrip | src/zod-schema.ts:117-144 | The thirteen settings of an accepted deck pass into the output unchanged. |
| DeckConformance.DeckStrip | src/zod-schema.ts:116-146 | The output of an accepted deck is `DeckOutput`. |
| DeckConformance.DeckConforms | src/zod-schema.ts:116-146 | `deckSchema` accepts exactly `IsDeck` and outputs `DeckOutput`. |
| DeckProperties.ParseDeckMeaning | src/zod-schema.ts:116-146 | `deckSchema.parse` succeeds exactly on the `IsDeck` documents and returns `DeckOutput`. |
| DeckProperties.NonObjectRejected | src/zod-schema.ts:116 | A document that is not an object fails with one invalid_type issue at the root, expecting an object. |
| DeckProperties.TitleRequired | src/zod-schema.ts:117 | A deck without a string `title` fails whatever else it holds. The first issue is an invalid_type at `title` (received `undefined` when absent). |
| DeckProperties.SlidesRequired | src/zod-schema.ts:145 | A deck whose `slides` is missing or not an array fails. |
| DeckProperties.StacksOneLevel | src/zod-schema.ts:107-114 | A stack is accepted exactly when all its members are slides. A stack holding an array is rejected. |
| DeckProperties.SmallestDeck | src/zod-schema.ts:116-146 | A deck with only a title and an empty `slides` array parses to itself, as a key→value map. |
| DeckProperties.EmptyEntries | src/zod-schema.ts:96-114 | An empty stack and an empty slide `{}` are entries and parse to themselves. |
| DeckProperties.EmptyStackAndSlide | src/zod-schema.ts:96-146 | A deck whose slides are an empty stack and `{}` parses to itself, as a key→value map. |
| DeckProperties.SlideContentNotExclusive | src/zod-schema.ts:102-104 | `html`, `markdown` and `blocks` together on one slide are accepted. |
| DeckProperties.BlockTags | src/zod-schema.ts:85-94 | An accepted block has a `type` that is one of the five tags. |
| DeckProperties.EveryTagAccepted | src/zod-schema.ts:4 | For each of the five tags, a block with that tag and a string `value` is accepted. |
| DeckProperties.VariantTagFirst | src/zod-schema.ts:24 | Each option of the union starts with its `type` literal. |
| DeckProperties.UnknownTagReported | src/zod-schema.ts:85-94 | A block with valid shared attributes and no known tag fails with exactly one invalid_union issue at the block's path, carrying five variant issue lists. |
| DeckProperties.UnknownTagVariants | src/zod-schema.ts:87-93 | Without a known tag, the variant union aborts with one invalid_union issue at its path. |
| DeckProperties.UnknownTagInBlocks | src/zod-schema.ts:104 | A `blocks` array holding a block with valid shared attributes and no known tag aborts. |
| DeckProperties.UnknownTagInSlide | src/zod-schema.ts:96-105 | A slide holding such a block aborts. |
| DeckProperties.UnknownTagInEntry | src/zod-schema.ts:109-112 | A `slides` entry holding such a slide fails with exactly one invalid_union at the entry's path, carrying two option issue lists. |
| DeckProperties.UnknownTagInDeck | src/zod-schema.ts:107-146 | A deck holding such a block in entry k fails, and its issues hold an invalid_union at `slides[k]`. |
| DeckProperties.EntryIssuesInDeck | src/zod-schema.ts:145 | The deck's parse reports every issue of every `slides` entry, at the entry's path. |
| DeckProperties.ValueRequired | src/zod-schema.ts:5 | `text`, `image`, `iframe` and `code` blocks without a string `value` are rejected. |
| DeckProperties.TableNeedsOnlyTag | src/zod-schema.ts:51-59 | `{type: "table"}` alone is an accepted block. |
| DeckProperties.TableDataRejected | src/zod-schema.ts:53 | A `table` block with `data` is never accepted. The shared schema wants an object there (line 67) and the table variant an array of arrays. |
| DeckProperties.DeckEnumRule | src/zod-schema.ts:121-144 | On a valid deck, setting an enum field to a string keeps it valid exactly when the string is in that field's list. |
| DeckProperties.SettingsEnumRule | src/zod-schema.ts:127-144 | On valid deck settings, setting an enum field to a string keeps them valid exactly when the string is in that field's list. |
| DeckProperties.DeckEnumsClosed | src/zod-schema.ts:127-144 | `visibility`, `theme-color`, `theme-font` and `transition` accept exactly their listed strings. |
| DeckProperties.DeckIntegerRule | src/zod-schema.ts:119-122 | On a valid deck, setting an integer field to a number keeps it valid exactly when the number is an integer. |
| DeckProperties.DeckIntegerFields | src/zod-schema.ts:119-122 | The deck's `width`, `height` and `auto-slide-interval` accept a number exactly when it is an integer. |
| DeckProperties.BackgroundSizeClosed | src/zod-schema.ts:100 | A slide's `background-size` accepts exactly `cover` and `contain`. |
| DeckProperties.VariantUnchanged | src/zod-schema.ts:3-59 | Changing a key that no variant declares does not change whether the variant rules hold. |
| DeckProperties.SharedEnumRule | src/zod-schema.ts:68-80 | On a valid block, setting `animation-type` or `animation-trigger` keeps it valid exactly for the listed strings. |
| DeckProperties.VariantEnumRule | src/zod-schema.ts:29-48 | On a valid block, setting its variant's `format`, `align` or `theme` keeps it valid exactly for the listed strings. |
| DeckProperties.BlockEnumsClosed | src/zod-schema.ts:6-80 | Every enum field of a block accepts exactly its listed strings. |
| DeckProperties.EnumSizes | src/zod-schema.ts:6-144 | The ten enum lists have 3, 2, 12, 5, 2, 16, 8, 3, 5 and 4 strings. |
| DeckProperties.SharedIntegerRule | src/zod-schema.ts:62-65 | On a valid block, setting `x`, `y`, `width` or `height` to a number keeps it valid exactly when the number is an integer. |
| DeckProperties.VariantIntegerRule | src/zod-schema.ts:55-57 | On a valid block, setting its variant's `padding` or `border-width` keeps it valid exactly when the number is an integer. |
| DeckProperties.BlockIntegerFields | src/zod-schema.ts:8-65 | A block's `x`, `y`, `width`, `height`, `padding` and `border-width` accept a number exactly when it is an integer. |
| DeckProperties.AnimationTimingRule | src/zod-schema.ts:81-82 | On a valid block, `animation-duration` and `animation-delay` may be set to any number. |
| DeckProperties.AnimationTimingAnyNumber | src/zod-schema.ts:81-82 | `animation-duration` and `animation-delay` accept any number, integral or not. |
| DeckProperties.LineNumbersRule | src/zod-schema.ts:28 | On a valid code block, `line-numbers` may be set exactly to a boolean or a string. |
| DeckProperties.LineNumbersBoolOrString | src/zod-schema.ts:28 | A code block's `line-numbers` accepts exactly booleans and strings. |
| DeckOutputs.BaseBlockLocal | src/zod-schema.ts:61-83 | The shared block rule reads only the ten shared keys. |
| DeckOutputs.VariantLocal | src/zod-schema.ts:3-59 | A variant rule reads only its variant's keys. |
| DeckOutputs.SlideAttributesLocal | src/zod-schema.ts:96-103 | The slide attribute rule reads only the seven attribute keys. |
| DeckOutputs.DeckSettingsLocal | src/zod-schema.ts:117-144 | The deck settings rule reads only the thirteen setting keys. |
| DeckOutputs.BlockOutputStable | src/zod-schema.ts:85-94 | A parsed block is a block, and parsing it again returns it unchanged. |
| DeckOutputs.BlocksStable | src/zod-schema.ts:104 | Parsed blocks are blocks, and each parses to itself. |
| DeckOutputs.SlideOutputStable | src/zod-schema.ts:96-105 | A parsed slide is a slide, and parsing it again returns it unchanged. |
| DeckOutputs.SlidesStable | src/zod-schema.ts:111 | The parsed slides of a stack are slides, and each parses to itself. |
| DeckOutputs.SlideEntryOutputStable | src/zod-schema.ts:109-112 | A parsed entry is an entry, and parsing it again returns it unchanged. |
| DeckOutputs.EntriesStable | src/zod-schema.ts:107-114 | The parsed entries of a deck are entries, and each parses to itself. |
| DeckOutputs.DeckOutputStable | src/zod-schema.ts:116-146 | A parsed deck is a deck, and parsing it again returns it unchanged. |
| DeckOutputs.ParseDeckIdempotent | src/zod-schema.ts:116-146 | Parsing the result of a successful `deckSchema.parse` returns the same result, as a key→value map. |
| DeckOutputs.NoDefaults | src/zod-schema.ts:118-144 | Every declared key is in the parsed deck exactly when it is in the input. The output has no other key, and every value except `slides` is unchanged. No default is inserted. |
| DeckOutputs.NoDefaultsInSlide | src/zod-schema.ts:96-105 | A parsed slide has no key the slide lacked. |
| DeckOutputs.NoDefaultsInBlock | src/zod-schema.ts:85-94 | A parsed block has no key the block lacked. |

## Left out

- The lz-string compression of the deck into the URL (`src/index.ts`) is a foreign library and is not part of this model.
- The MCP server and tool registration, `zodToJsonSchema`, the `invariant` call, HTTP routing, the SSE transport and the HTML hand-off page (`src/index.ts`) are library glue and I/O, and are not part of this model.
- The per-request `localUrl` and URL building with the `URL` class (`src/index.ts`) are ambient state and a foreign call, and are not part of this model.
- Rules that appear only in the tool's documentation string are not modelled, because the schema does not enforce them:
  - the id character set;
  - the 10,000-character limit on notes;
  - table `html` taking precedence over `data`;
  - the documented defaults.
- Zod's message texts are not modelled. Issues carry their path and code; the expected and received types are modelled only for invalid_type.
- Numbers are mathematical reals. IEEE doubles, NaN, infinities and signed zero are not modelled. `Number.isInteger` is `IsInteger` on a real.
- `undefined` inside a JSON document does not occur in a parsed JSON value. An array element whose output is `undefined` is written as `null` (`Zod.Defined`).
- `z.record(z.any())` is modelled as "any object", which is what it checks for this value schema. Its key checks and the refusal of arrays by its parsed-type test are folded into that.
- The output of `z.record(z.any())` is modelled as the input object unchanged. Zod 3.22 and later build a record's output with `mergeObjectSync`, which skips a key named `__proto__`. So for a block's `data` of `{"__proto__": 1}` Zod returns `data: {}`, while `Zod.Parse`, `Zod.Strip` and `DeckRules.BlockOutput` keep the key. Acceptance is unaffected. The output statements that rest on this, such as `DeckConformance.BlockConforms` and `DeckProperties.ParseDeckMeaning`, describe such a `data` object with that key kept.
- Zod.Merge: does not model Zod's recursive merge of two differing objects or arrays under a shared key. It reports such a pair as not mergeable. Both sides of `blockSchema` output restrictions of one input object, and those always merge (`Zod.MergeRestrictions`).
- Key order is not modelled. Objects are `map<string, Json>`, compared as key→value maps. Zod builds each object output by walking the schema's shape, so the parsed deck's keys come out in schema order. A parsed block's keys come out as the shared keys, then the variant's keys. `JSON.stringify` writes that order into the URL. "Parses to itself" in `DeckProperties.SmallestDeck`, `DeckProperties.EmptyStackAndSlide` and `DeckOutputs.ParseDeckIdempotent` holds up to key order: `{"slides":[],"title":"t"}` comes back as `{"title":"t","slides":[]}`.
- DeckProperties.UnknownTagInDeck: states that the deck's issues contain the entry's invalid_union, not that it is the only issue. Other invalid fields of the deck add issues of their own.
- `z.lazy` is expanded once, to the fixed slide-entry array. The schema has no real recursion.
- DeckProperties.SlidesRequired: states only that parsing fails, not which issues are reported.
- DeckProperties.ValueRequired: states only that the block is rejected, not which issues are reported.
- DeckOutputs.NoDefaultsInSlide: states only that a slide gains no keys. Its exact output is in `DeckConformance.SlideConforms`.
- DeckOutputs.NoDefaultsInBlock: states only that a block gains no keys. Its exact output is in `DeckConformance.BlockConforms`.
