# tcg-cardgen card rendering, modelled in Dafny

tcg-cardgen turns a markdown card file into a PNG. The card file has YAML front matter and a markdown body. The look comes from a YAML *card style* (a template). This project models the decision logic of that pipeline:

- **`Metadata`** (`metadata.dfy`) reads a card file. It checks for the opening `---`, splits the front matter from the body, removes header lines from the body and fills in the defaulted card fields.
- **`Templates`** (`templates.dfy`) holds the template and layer records. It covers the `extends` merge (dimensions, required fields, optional values, style tokens, icons, layers and layer overrides) and the validation of a card against a template.
- **`TemplateManager`** (`templatemanager.dfy`) covers:
  - loading a template with its chain of `extends`;
  - the built-in base paths;
  - the five-place search for a card style;
  - the manager's template cache;
  - the de-duplicated listing of card styles.
- **`TextFormat`** (`textformat.dfy`) is the markdown subset. It has line classification, the recursive `*`/`**`/`***` parser, the `## Footer` split and header stripping.
- **`WordWrap`** (`wordwrap.dfy`) is the greedy word wrap of formatted segments, with text measurement as an abstract width function.
- **`RenderUtils`** (`renderutils.dfy`) has `{{key}}` substitution, layer conditions and `#rrggbb` colours.
- **`Variables`** (`variables.dfy`) builds the card's variable map. There are two builders: the current one, which flattens map-valued metadata one level, and the older renderer's non-flattening one. Each is an explicit sequence of writes in which the later write wins.
- **`Compositor`** (`compositor.dfy`) models the renderer:
  - the layer dispatch (condition, type switch);
  - the image source → fallback → placeholder choice;
  - the fit-mode precedence;
  - the text-layer pipeline;
  - the `RenderCard` loop, which draws onto a `Canvas` object and stops at the first failing layer.

  Both renderer revisions are covered, `pkg/renderer` (current) and `internal/renderer` (older). A `Revision` value selects between them.

The support modules are `Wrappers` (Option/Result), `StringUtil` and `Values`:

- `StringUtil` is the subset of Go's `strings`, `strconv` and `path/filepath` that is used: `TrimSpace`, `Index`, `Split`, `Join`, `ReplaceAll`, `Fields`, `ToLower`, `Itoa`/`Atoi`, `Join`/`Dir`/`Base`/`Ext`. Its lemmas include the split/join and decimal round trips.
- `Values` is the decoded YAML `interface{}`, a tagged union.

Where Go iterates over a map, the order is unspecified. In the model the method picks each key nondeterministically and returns the order it used as a ghost out-parameter. The specification functions take that order as a parameter.

Where the code and its documentation disagree, the model follows the code:

- `SeparateFooter` removes leading blank lines from the footer and trailing blank lines from the body, but keeps the trailing blank lines of the footer. So a footer followed by an empty line comes back as `"footer1\n"`, not `"footer1"`.
- `EvaluateCondition("")` is false unless the variables hold a set key `""`. This is because splitting on `&&` always yields at least one operand. Layers avoid the case by never evaluating an empty condition.
- The comment on `mergeLayers` (internal/templates/template.go:354) says extending layers can override base layers by name. The code at lines 381-386 instead drops an extending layer whose name matches a base layer and keeps the base layer. Changing a base layer is left to `layer_overrides`. `Templates.Unnamed` and `Templates.MergedLayersFrom` state the code's behaviour.
- The template cache key is the TCG and the cardstyle joined by "/" (internal/templates/template.go:116). So the requests ("a/b", "c") and ("a", "b/c") share one cache entry, and the second request is served the first one's template. `TemplateManager.SharedCacheKey` exhibits the collision, `TemplateManager.KeyParts` shows that slash-free requests never collide, and `Manager.LoadTemplate` keeps the source's key.

## Model

| member | source | states |
|---|---|---|
| Metadata.ScanLines | internal/metadata/parser.go:64-78 | The scanner's lines: the data cut at every newline, with at most as many lines as the "\n"-split has. |
| Metadata.ScanLinesNoNewline | internal/metadata/parser.go:64-78 | No scanned line holds a newline. |
| Metadata.ScanLinesJoin | internal/metadata/parser.go:64-78 | For text without '\r' that does not end in a newline, rejoining the scanned lines with "\n" gives the text back. |
| Metadata.DropCR | internal/metadata/parser.go:64-78 | A scanned line is the raw line, or the raw line without one trailing '\r'. |
| Metadata.CloseIndex | internal/metadata/parser.go:68-73 | The first "---" line at or after the start, or the end: no "---" in between. |
| Metadata.FrontMatterMissing | internal/metadata/parser.go:59-62 | The split fails exactly when there is no first line or the first line is not exactly "---". |
| Metadata.FrontMatterParts | internal/metadata/parser.go:64-78 | The lines are "---", then front matter with no "---", then either the closing "---" and the body, or nothing, with an empty body. |
| Metadata.SplitFrontMatter | internal/metadata/parser.go:59-78 | The two scanning loops compute the front-matter/body split, or None when the opening line is missing. |
| Metadata.ProcessBody | internal/metadata/parser.go:110-124 | The loop computes the body text: header lines dropped, the rest joined with "\n", then trimmed. |
| Metadata.BodyTextTrimmed | internal/metadata/parser.go:110-124 | The body has no surrounding white space. |
| Metadata.BodyLinesKept | internal/metadata/parser.go:110-124 | Before trimming, the body's lines are exactly the non-header lines, verbatim and in order. |
| Metadata.BodyAllHeaders | internal/metadata/parser.go:110-124 | A body made only of header lines is empty. |
| Metadata.TitleSource | internal/metadata/parser.go:129-134 | The title source (the file's base name without its extension, '_' made ' ') has no underscore. |
| Metadata.TitleSourceChars | internal/metadata/parser.go:129-134 | Every other character of the base name stays in place. |
| Metadata.Defaulted | internal/metadata/parser.go:127-163 | Each defaulted field takes its default exactly when it is zero or empty: title from the file name, counts 1, "common", "Unknown", "Unknown Artist", body size 12. Every other field is unchanged. |
| Metadata.SetDefaults | internal/metadata/parser.go:127-163 | The field-by-field method computes the defaulted card. |
| Metadata.DefaultsIdempotent | internal/metadata/parser.go:127-163 | Defaulting twice is the same as defaulting once. |
| Metadata.DefaultsFilled | internal/metadata/parser.go:127-163 | After defaulting, the counts and body size are non-zero and the rarity, set and artist are non-empty. |
| Metadata.ParseFile | internal/metadata/parser.go:50-107 | ParseFile's result: a read error, the missing front matter, a YAML error, or the card with its body and defaults. |
| Metadata.ParseNeedsFrontMatter | internal/metadata/parser.go:59-62 | A file whose first line is not "---" fails with "missing YAML frontmatter" before any decoding. |
| Metadata.ParsedCard | internal/metadata/parser.go:84-104 | A parsed card has front matter, carries the cleaned body of the lines after it, and has every default filled in. |
| Templates.Overridden | internal/templates/template.go:396-424 | Source, content, condition and fit mode take the override's string value when it has one. Every other field is unchanged. |
| Templates.ApplyLayerOverride | internal/templates/template.go:396-424 | The loop over the updates computes the overridden layer, whatever the map's iteration order. |
| Templates.OverrideIdempotent | internal/templates/template.go:396-424 | Applying the same override twice is the same as applying it once. |
| Templates.OverrideNeedsStrings | internal/templates/template.go:402-421 | Updates that give no string for the four fields leave the layer unchanged. |
| Templates.WithDefaults | internal/templates/template.go:324-352 | The merged map has the keys of both maps, the extending value where there is one and the base value elsewhere. |
| Templates.MergeDefaults | internal/templates/template.go:324-352 | The copy-then-fill loop computes that merged map. |
| Templates.WithDefaultsChain | internal/templates/template.go:324-352 | Merging along an extends chain does not depend on grouping. |
| Templates.WithDefaultsIdempotent | internal/templates/template.go:324-352 | Merging the same base in again changes nothing. |
| Templates.Dedup | internal/templates/template.go:312-322 | Each element of the list once, no duplicates, same element set. |
| Templates.MergeRequired | internal/templates/template.go:312-322 | The merged required fields are exactly the fields of either list, each once. |
| Templates.ByName | internal/templates/template.go:355-358 | The base layers indexed by name: one key per base layer name. |
| Templates.WithOverrides | internal/templates/template.go:361-367 | Applying overrides keeps the same layer names. An override naming no layer is skipped. |
| Templates.Unnamed | internal/templates/template.go:381-386 | Exactly the extending layers whose name is not a base name, in order. |
| Templates.IndexByName | internal/templates/template.go:355-358 | The indexing loop computes the by-name map. |
| Templates.ApplyOverrides | internal/templates/template.go:361-367 | The override loop computes the overridden map. |
| Templates.Resolved | internal/templates/template.go:369-379 | One layer per base layer, in base order, replaced by the resolved layer of its name. |
| Templates.ResolveBaseLayers | internal/templates/template.go:369-379 | The loop computes the resolved base layers and the set of base names. |
| Templates.AppendUnnamed | internal/templates/template.go:381-386 | The loop appends exactly the non-colliding extending layers. |
| Templates.MergeLayers | internal/templates/template.go:354-391 | The merged layers are the base layers with overrides, then the non-colliding extending layers, then the additional layers. |
| Templates.OverrideOfUnknownLayer | internal/templates/template.go:361-367 | An override naming no base layer has no effect on the merged layers. |
| Templates.BaseLayersFirst | internal/templates/template.go:354-379 | Without overrides, distinctly named base layers come first and unchanged. |
| Templates.MergedLayersFrom | internal/templates/template.go:354-391 | Every merged layer is an overridden base layer, a non-colliding extending layer or an additional layer. Every non-colliding extending layer is kept. |
| Templates.MergeTemplates | internal/templates/template.go:301-393 | mergeTemplates gives the merged template. Its required list is the union of both lists without duplicates, in whatever order the map yields. |
| Templates.MergedDimensions | internal/templates/template.go:307-309 | The merge takes the base's dimensions exactly when the extending width is 0, and keeps its own otherwise. |
| Templates.MergedCollections | internal/templates/template.go:312-352 | Required fields are the set union without duplicates. Optional values, style tokens and icons hold both key sets, with the extending template winning. |
| Templates.MergeWithEmptyBase | internal/templates/template.go:301-393 | Merging onto an empty base keeps the extending template's own parts, with its additional layers appended. |
| Templates.NestedPath | internal/templates/template.go:461-508 | A two-part path outside the fixed ones, with no flat key, holds exactly when the nested value is set. |
| Templates.FlatKeyPresent | internal/templates/template.go:478-481 | Outside the fixed paths, a flat metadata key satisfies a field whatever its value. |
| Templates.FixedPathIgnoresFlatKey | internal/templates/template.go:462-477 | A fixed card.* path ignores a flat metadata key of the same name. |
| Templates.ThreePartPath | internal/templates/template.go:483-489 | A three-part path without a flat key is never found. |
| Templates.FirstMissing | internal/templates/template.go:433-438 | The first field the card lacks, or None exactly when it has them all. |
| Templates.ValidateCard | internal/templates/template.go:427-448 | The method computes the validation outcome. |
| Templates.HasRequiredField | internal/templates/template.go:451-458 | True exactly when the field is in the required list. |
| Templates.MismatchFirst | internal/templates/template.go:428-431 | A TCG mismatch is reported before any required field is looked at. |
| Templates.FirstMissingReported | internal/templates/template.go:433-438 | With matching TCGs, the first missing required field in list order is reported. |
| Templates.AcceptedIff | internal/templates/template.go:427-448 | A card is accepted exactly when its TCG matches and it has every required field. The second TCG check never fires. |
| TemplateManager.LoadTemplateFile | internal/templates/template.go:248-261 | The file loads exactly when it decodes. Its directory is recorded. |
| TemplateManager.LoadAndProcess | internal/templates/template.go:264-283 | A loaded template keeps its file's TCG, name and directory. |
| TemplateManager.BaseFailureFails | internal/templates/template.go:271-276 | A template whose base cannot be loaded fails with "failed to load base template '…". |
| TemplateManager.BuiltinBasePath | internal/templates/template.go:210-221 | The resolved path, before any `filepath.Clean`, starts with "builtin/" or is "builtin": a "./" path is joined onto the current directory, and any path not starting with "builtin/" is joined onto "builtin". |
| TemplateManager.BuiltinPathKept | internal/templates/template.go:210-221 | A path already under "builtin/" is used as is. |
| TemplateManager.BuiltinRelativePath | internal/templates/template.go:211-214 | A "./" path is resolved in the current built-in directory. |
| TemplateManager.ResolveBuiltinBase | internal/templates/template.go:208-245 | A resolved built-in base comes from the resolved path and records its directory. |
| TemplateManager.LoadBuiltin | internal/templates/template.go:177-205 | A built-in template comes from its embedded path and records the directory "builtin/" + TCG. |
| TemplateManager.SearchOrder | internal/templates/template.go:133-174 | findAndLoadTemplate is the first place in the fixed order that accepts, falling through on every failure, and otherwise the built-in template. |
| TemplateManager.SearchFailure | internal/templates/template.go:133-174 | The search fails only when every place failed. The error is then the built-in one's. |
| TemplateManager.RootFileOfOtherTcg | internal/templates/template.go:154-161 | A user-root file of another TCG is passed over, as if that place did not exist. |
| TemplateManager.RootTier | internal/templates/template.go:154-161 | The user-root place is the only one that checks the TCG. |
| TemplateManager.SkipRejected | internal/templates/template.go:133-174 | A place that does not accept can be left out of the search. |
| TemplateManager.WorkspaceFirst | internal/templates/template.go:141-145 | A workspace template is taken whatever the other places hold. |
| TemplateManager.FirstByKey | internal/templates/template.go:522-579 | One entry per TCG/name key, each taken from the input, with the same key set. |
| TemplateManager.FirstOccurrenceKept | internal/templates/template.go:522-579 | The entry kept for a key is the first one found with that key. |
| TemplateManager.AddUnseen | internal/templates/template.go:529-537 | Appending a list's unseen styles extends the de-duplicated prefix. |
| TemplateManager.AddTier | internal/templates/template.go:540-576 | A configured place whose discovery succeeded contributes its unseen styles. Any other contributes nothing. |
| TemplateManager.Manager.constructor | internal/templates/template.go:102-112 | The user folder is ".tcg-cardgen/cardstyles" under the home directory, and the cache is empty. |
| TemplateManager.Manager.LoadTemplate | internal/templates/template.go:115-130 | A cached key returns its template without searching. Otherwise the search result is cached, or its error is wrapped. Slash-free requests get exactly what the search finds. |
| TemplateManager.Manager.ListAvailableCardstyles | internal/templates/template.go:522-579 | The listing is the first style per TCG/name over workspace, user (when set), legacy (when set) and built-in, in that order. |
| TemplateManager.KeyParts | internal/templates/template.go:116 | Slash-free requests are the only ones stored under their cache key. |
| TemplateManager.SharedCacheKey | internal/templates/template.go:116 | "a/b" + "c" and "a" + "b/c" share a cache key. |
| TextFormat.MarkerOf | internal/renderer/text.go:121-150 | The marker for a run of n is n asterisks. |
| TextFormat.StarRun | internal/renderer/text.go:121-150 | The run at the first '*', capped at three, is made of asterisks and ends before a non-'*' unless capped. |
| TextFormat.StarIndices | internal/renderer/text.go:121-150 | Where "**" and "***" occur relative to the first '*'. |
| TextFormat.ChooseMarker | internal/renderer/text.go:121-150 | The three checks choose the first '*' and the run it starts. |
| TextFormat.ParseFormatting | internal/renderer/text.go:117-211 | Text without '*' is one plain segment, or none when empty. No plain segment is empty. Writing the segments back with their asterisks gives the input. Also internal/renderer/renderer.go:386-480. |
| TextFormat.ParseRun | internal/renderer/text.go:171-208 | After the chosen run, the segments still unparse to the text. |
| TextFormat.ParseClosed | internal/renderer/text.go:163-208 | A closed run gives the plain text before it, one styled segment and the parsed rest, and these unparse to the text. |
| TextFormat.Unterminated | internal/renderer/text.go:171-182 | A run with no closing run leaves everything from the first '*' as one plain segment. Nothing after it is parsed. |
| TextFormat.ClosedRun | internal/renderer/text.go:163-208 | A closed run gives the plain prefix, the text up to the first equal run in the run's style (bold+italic, bold, italic), then the parse of the rest. |
| TextFormat.UnparseAppend | internal/renderer/text.go:117-211 | Writing segments back distributes over concatenation. |
| TextFormat.CombinePlain | internal/renderer/text.go:489-495 | On plain segments, combining and writing back agree. |
| TextFormat.CombineParseNoStars | internal/renderer/text.go:489-495 | Text without '*' comes back unchanged from parse-then-combine. |
| TextFormat.HashRun | internal/renderer/text.go:76-98 | The leading '#' count. |
| TextFormat.HeaderScan | internal/renderer/text.go:76-88 | The header loop's level and text: the hash count when a space or the end follows (else 0), and the text after the space. |
| TextFormat.ScanHeader | internal/renderer/text.go:76-88 | The character loop computes the header scan. |
| TextFormat.ClassifyLine | internal/renderer/text.go:57-104 | A blank line gives a blank normal line. "---" or "***" gives a rule, checked first. Headers have level 1 to 6. Other kinds have level 0. |
| TextFormat.HeaderLine | internal/renderer/text.go:76-98 | One to six '#' and a space make a header at that level, with the text after the space. |
| TextFormat.OverlongHeader | internal/renderer/text.go:82-104 | Seven or more '#' and a space give a normal line whose hashes and space were already cut off. |
| TextFormat.FormatLine | internal/renderer/text.go:57-104 | The loop body computes the classified line. |
| TextFormat.ProcessMarkdown | internal/renderer/text.go:51-108 | Exactly one classified line per "\n"-separated input line, in order. Also internal/renderer/renderer.go:320-377. |
| TextFormat.NonHeaderLines | internal/renderer/text.go:253-265 | Only non-header lines, taken from the input; all of them when there is no header. |
| TextFormat.StripMarkdownHeaders | internal/renderer/text.go:253-265 | The loop computes the text of the non-header lines joined with "\n". Also internal/renderer/renderer.go:522-534. |
| TextFormat.StripIdempotent | internal/renderer/text.go:253-265 | Stripping headers twice is the same as stripping once. |
| TextFormat.FooterIndex | internal/renderer/text.go:218-225 | The first line equal to "## footer" after trim and lowercase, or -1 when there is none. |
| TextFormat.DropTrailingBlank | internal/renderer/text.go:236-239 | The longest prefix not ending in a blank line. Only blank lines are dropped. |
| TextFormat.DropLeadingBlank | internal/renderer/text.go:241-244 | The longest suffix not starting with a blank line. Only blank lines are dropped. |
| TextFormat.SeparateFooter | internal/renderer/text.go:214-250 | The method computes the (body, footer) split. Also internal/renderer/renderer.go:483-519. |
| TextFormat.FooterAtFirstMarker | internal/renderer/text.go:214-250 | The split is at the first marker, which is in neither part. The body loses its trailing blanks and the footer its leading blanks. |
| TextFormat.NoFooter | internal/renderer/text.go:227-230 | Without a marker the result is (content, ""). |
| WordWrap.SegmentWords | internal/renderer/text.go:388-392 | A segment's words are its fields, each with the segment's style. |
| WordWrap.WordsStartSegment | internal/renderer/text.go:384-394 | The first word overall starts its segment. |
| WordWrap.FoldInvariant | internal/renderer/text.go:379-447 | The greedy loop keeps its invariant: every word is placed once and in order, lines fit, and every break was forced. |
| WordWrap.GroupsCorrect | internal/renderer/text.go:379-447 | The wrapped lines hold every word once, in order and with its style. Every line is non-empty. A break happens only when the next word would overflow a non-empty line. |
| WordWrap.RenderLineText | internal/renderer/text.go:410-435 | A line's first fragment is its first word with no leading space. The line reads as its words joined by spaces. |
| WordWrap.AddWord | internal/renderer/text.go:394-437 | One inner-loop pass is one step of the greedy fold. |
| WordWrap.AddSegment | internal/renderer/text.go:384-439 | The inner loop is the fold over one segment's words. |
| WordWrap.WrapFormattedSegments | internal/renderer/text.go:379-447 | The method computes the greedy wrap as written. Also internal/renderer/renderer.go:690-758. |
| WordWrap.CorrectedTracksRendered | internal/renderer/text.go:394-437 | Counting the space on every non-first word makes the recorded width equal the drawn width. |
| WordWrap.CorrectedLinesFit | internal/renderer/text.go:394-437 | With the space counted, a drawn line of two or more words is never wider than the limit. |
| WordWrap.AsWrittenOverflows | internal/renderer/text.go:396-398 | As written, "a" and a bold "b" at a limit of 2 share one line 3 wide. |
| RenderUtils.WalkEnd | internal/renderer/utils.go:21-23 | A finished walk over a map's keys visits every key once. |
| RenderUtils.ValuePairs | internal/renderer/utils.go:19-26 | Each key in order, paired with its value. |
| RenderUtils.SubstituteVariables | internal/renderer/utils.go:19-26 | Every `{{key}}` is replaced by its value, key after key in the returned map order. Text with no placeholder of any key comes back unchanged. Also internal/renderer/variables.go:140-150 and internal/renderer/renderer.go:292-302. |
| RenderUtils.ReplaceKeysAbsent | internal/renderer/utils.go:19-26 | Text with no placeholder of any key is unchanged. |
| RenderUtils.SubstituteAbsent | internal/renderer/variables.go:140-150 | Text with no placeholder of any variable is unchanged, in every iteration order. This includes the empty map. |
| RenderUtils.SubstituteSingle | internal/renderer/variables.go:140-150 | With one variable, every occurrence of its placeholder is replaced by its value. |
| RenderUtils.EvaluateCondition | internal/renderer/utils.go:48-67 | True exactly when every "&&" operand of the brace-stripped, trimmed condition names a variable that is present and neither "" nor "null". Also internal/renderer/renderer.go:537-556. |
| RenderUtils.BlankCondition | internal/renderer/utils.go:57-64 | A blank condition holds only when the variable "" is set. |
| RenderUtils.PlainKeyCondition | internal/renderer/utils.go:48-67 | A bare variable name holds exactly when that variable is set. |
| RenderUtils.PlaceholderCondition | internal/renderer/utils.go:53-54 | "{{key}}" reads as the bare key. |
| RenderUtils.HexDigitValue | internal/renderer/utils.go:36-42 | A hex digit's value, or -1. |
| RenderUtils.ParseHexByte | internal/renderer/utils.go:36-42 | Two hex digits give 0..255. A non-hex pair gives 0. |
| RenderUtils.ParseColorErrors | internal/renderer/utils.go:29-45 | An error comes exactly when the text is not "#" plus six characters, always with black. Otherwise alpha is 255. Also internal/renderer/renderer.go:559-575. |
| RenderUtils.BadPairIsZero | internal/renderer/utils.go:36-42 | "#zz8000" gives (0,128,0,255) and no error. |
| RenderUtils.FormatHex | internal/renderer/utils.go:34-42 | "#rrggbb" is seven characters starting with '#'. |
| RenderUtils.HexByteRoundTrip | internal/renderer/utils.go:36-42 | Parsing a formatted byte gives the byte back. |
| RenderUtils.ColorRoundTrip | internal/renderer/utils.go:29-45 | Parsing a formatted colour gives its channels back, fully opaque. |
| Variables.ApplyLookup | internal/renderer/variables.go:26-137 | After a sequence of writes, a key holds its last written value, or its old value when it was never written. |
| Variables.ApplyConcat | internal/renderer/variables.go:26-137 | Performing two write lists is performing their concatenation. |
| Variables.FormatValue | internal/renderer/variables.go:93-111 | Nil stores nothing, strings are stored verbatim and ints in decimal. |
| Variables.FixedKeysDotted | internal/renderer/variables.go:43-55 | Every fixed key holds a '.'. |
| Variables.ArtworkValues | internal/renderer/variables.go:57-80 | A string artwork sets card.artwork. A map artwork sets card.artwork from its string "url" and card.artwork.fit from its string "fit". No artwork writes nothing. |
| Variables.ArtworkOther | internal/renderer/variables.go:57-80 | The artwork phase writes only the two artwork keys. |
| Variables.NestedOwn | internal/renderer/variables.go:85-102 | A map entry's inner key is written under "outer.inner" from its own value, except card/artwork. |
| Variables.MetadataFlat | internal/renderer/variables.go:82-112 | A dot-free key is written by the metadata phase only by its own entry, and only when that entry is not a map. |
| Variables.MetadataDotted | internal/renderer/variables.go:82-112 | "x.y" is written only from entry y of map entry x (never card/artwork), when there is no flat entry of that name. |
| Variables.TokenOwn | internal/renderer/variables.go:114-117 | Every style token k is written under "style_tokens." + k. |
| Variables.TokenOther | internal/renderer/variables.go:114-117 | The token phase writes nothing outside "style_tokens.". |
| Variables.OptionalOwn | internal/renderer/variables.go:119-130 | Every optional value is written under its own key. |
| Variables.LegacyOwn | internal/renderer/renderer.go:115-125 | The older builder writes each entry, maps included, whole under its key. |
| Variables.VarsLookup | internal/renderer/variables.go:26-137 | Apart from the directories, a key holds its last later write, else its fixed field. |
| Variables.DirsSet | internal/renderer/variables.go:132-134 | template_dir is the template directory and icon_dir is that directory joined with "icons", in both builders. Also internal/renderer/renderer.go:145-147. |
| Variables.OptionalWins | internal/renderer/variables.go:119-130 | An optional template value overrides everything but the directories. |
| Variables.TokenStored | internal/renderer/variables.go:114-117 | Each token is stored under "style_tokens." + k unless an optional value of that name replaces it. |
| Variables.NestedStored | internal/renderer/variables.go:85-102 | "x.y" of a map entry x is stored flattened one level. It replaces the typed card field and is replaced only by an optional value. |
| Variables.FlatStored | internal/renderer/variables.go:103-111 | A flat non-map entry is stored under its key. Nil and map entries store nothing under their own key. |
| Variables.BodyAndFooterStored | internal/renderer/variables.go:29-41 | card.body and card.footer come from the footer split of the rules text (else the body). The flavor text replaces an empty footer. |
| Variables.StoredFromFixed | internal/renderer/variables.go:43-55 | A typed card field that nothing later names keeps its typed value. |
| Variables.ArtworkStored | internal/renderer/variables.go:57-80 | A string artwork, or a map artwork's url, is stored as card.artwork unless a flat entry or optional value replaces it. |
| Variables.LegacyMapStored | internal/renderer/renderer.go:115-125 | The older builder stores a map entry whole, in its generic form, never flattened. |
| Variables.WriteMetadata | internal/renderer/variables.go:82-112 | The metadata loop performs exactly the metadata writes, in the returned iteration orders. |
| Variables.WriteLegacyMetadata | internal/renderer/renderer.go:115-125 | The older metadata loop performs exactly its writes. |
| Variables.WriteTokens | internal/renderer/variables.go:114-117 | The token loop performs exactly the token writes. |
| Variables.WriteOptional | internal/renderer/variables.go:119-130 | The optional loop performs exactly the optional writes. |
| Variables.WriteCardFields | internal/renderer/variables.go:29-55 | The fixed fields are computed from the footer split of the body source. |
| Variables.BuildTemplateVariables | internal/renderer/variables.go:26-137 | The map is built by fixed fields, artwork, flattened metadata, tokens, optional values and the directories, in that order. template_dir and icon_dir always hold the template's directory and its icons folder. Every non-null optional value other than those two is stored, formatted. Every style token is stored under its prefix unless an optional value of that name replaces it. |
| Variables.BuildLegacyVariables | internal/renderer/renderer.go:83-150 | The older map is built by fixed fields, whole metadata, tokens, optional values and the directories, in that order. template_dir and icon_dir always hold the template's directory and its icons folder. |
| Variables.ProcessIconReplacements | internal/renderer/variables.go:153-165 | Each icon's `{{key}}` becomes "[key]", key after key in the returned order. Text with no icon placeholder comes back unchanged. |
| Variables.IconsAbsent | internal/renderer/variables.go:153-165 | Text with no icon placeholder is unchanged. |
| Variables.SingleIcon | internal/renderer/variables.go:153-165 | With one icon, every occurrence of its placeholder becomes "[key]". |
| Compositor.ParseFitMode | pkg/renderer/image.go:81-149 | Any name other than "fit", "stretch" or "center" gives fill. |
| Compositor.FitNameRoundTrip | pkg/renderer/image.go:81-149 | Every mode is read back from its own name. |
| Compositor.FitPrecedence | pkg/renderer/renderer.go:110-116 | The fit mode is a non-empty card.artwork.fit, else the layer's fit mode, else "fill". |
| Compositor.ImagePath | pkg/renderer/renderer.go:81-91 | The source, else the fallback when named. None exactly when both are empty. |
| Compositor.BaseFont | pkg/renderer/renderer.go:144-148 | The layer's font, else 12 point black. |
| Compositor.ConditionSkips | pkg/renderer/renderer.go:60-76 | A non-empty failing condition skips the layer with no error. A holding condition dispatches by type. An empty condition is never evaluated. Also internal/renderer/renderer.go:153-169. |
| Compositor.EmptyConditionNotEvaluated | pkg/renderer/renderer.go:61-66 | The blank condition fails, yet a layer without a condition is drawn. |
| Compositor.UnknownType | pkg/renderer/renderer.go:68-75 | The layer errors with "unknown layer type" exactly for types other than "image" and "text". |
| Compositor.NoImageSource | pkg/renderer/renderer.go:81-91 | An image layer errors with "no image source" exactly when the source and the named fallback are both empty. Also internal/renderer/renderer.go:174-183. |
| Compositor.ImageDrawsOne | pkg/renderer/renderer.go:94-118 | A successful image layer draws exactly one thing in its region: an image that loaded, or a placeholder naming the first path. |
| Compositor.FallbackRetry | pkg/renderer/renderer.go:94-106 | After a failed load of the source, the retried fallback text is drawn exactly when a fallback is named, its compared text differs from the source and its retried text loads. Otherwise a placeholder naming the source is drawn with no error. Also internal/renderer/renderer.go:186-197. |
| Compositor.ImageRetried | pkg/renderer/renderer.go:93-118 | Once the first path is fixed, the outcome is that path's image when it loads, else the retried fallback's image when the compared text differs and the retried text loads, else a placeholder naming the first path. |
| Compositor.FallbackTextsMayDiffer | pkg/renderer/renderer.go:86-98 | Two walks over {a: "{{b}}", b: "x"} turn "{{a}}" into "x" and into "{{b}}", so the fallback's three separate substitutions need not agree. Also internal/renderer/renderer.go:178-190. |
| Compositor.ImageFitPrecedence | pkg/renderer/renderer.go:108-118 | The current revision fits by the effective fit mode. The older one draws the image unfitted. |
| Compositor.TextEmpty | pkg/renderer/renderer.go:126-129 | Empty content draws nothing. Any other content draws one text block in the region. |
| Compositor.StrippedDrawsNoHeader | pkg/renderer/renderer.go:131-142 | For non-empty content with stripping on and icon replacement off, headers are gone before the markdown is read, so no drawn line is a header. With icon replacement on, an icon key holding "\n# " could bring a header back. Also internal/renderer/renderer.go:209-225. |
| Compositor.ErrorSticks | pkg/renderer/renderer.go:45-49 | After a layer fails, later layers change neither the drawing nor the error. |
| Compositor.AllLayersDrawn | pkg/renderer/renderer.go:45-49 | When no layer fails, every layer's actions are drawn in order with no error. |
| Compositor.NoLayerError | pkg/renderer/renderer.go:45-49 | There is no card error exactly when no layer fails. |
| Compositor.FirstLayerError | pkg/renderer/renderer.go:45-49 | The first failing layer's error, naming the layer, ends the drawing after the layers before it. Also internal/renderer/renderer.go:68-72. |
| Compositor.SaveError | pkg/renderer/renderer.go:52-54 | There is a save error exactly when the save fails. |
| Compositor.Canvas.Draw | pkg/renderer/renderer.go:117-118 | Drawing appends one action to the canvas. |
| Compositor.Renderer.BuildVariables | pkg/renderer/renderer.go:41-42 | The map is the one built by this revision's builder. template_dir and icon_dir always hold the template's directory and its icons folder. Also internal/renderer/renderer.go:64-65. |
| Compositor.Renderer.LoadImage | pkg/renderer/image.go:28-58 | The result is whether the path loads. Only loaded paths enter the cache. Also internal/renderer/renderer.go:246-266. |
| Compositor.Renderer.FirstPath | pkg/renderer/renderer.go:81-91 | The first path is the substituted source, else the substituted fallback when one is named, None when both are empty. The fallback is substituted only when the source is empty. Also internal/renderer/renderer.go:174-183. |
| Compositor.Renderer.LoadWithRetry | pkg/renderer/renderer.go:93-100 | The result is true exactly when the first path loads, or a fallback is named, its compared substitution differs from the path and its second substitution loads. The drawn path is the first path or that second substitution. Also internal/renderer/renderer.go:185-192. |
| Compositor.Renderer.RenderImageLayer | pkg/renderer/renderer.go:79-121 | The canvas receives exactly the image outcome's actions, with the source and each of the fallback's three substitutions taken in its own map order. The error is the outcome's error. |
| Compositor.Renderer.RenderTextLayer | pkg/renderer/renderer.go:124-160 | The canvas receives exactly the text outcome's actions: substitute, strip, replace icons, parse. |
| Compositor.Renderer.RenderLayer | pkg/renderer/renderer.go:60-76 | The canvas receives exactly the layer outcome's actions. |
| Compositor.Renderer.RenderLayers | pkg/renderer/renderer.go:45-49 | The canvas and the error are the layer-by-layer collection, stopping at the first error. |
| Compositor.Renderer.RenderCard | pkg/renderer/renderer.go:33-57 | A fresh canvas of the template's size holds the collected actions. The error is the first layer's error, else the save error. Also internal/renderer/renderer.go:56-80. |
| StringUtil.JoinSplit | internal/renderer/text.go:214-250 | Joining the split of a string by the same separator gives it back. |
| StringUtil.SplitJoin | internal/renderer/text.go:214-250 | Splitting a join of separator-free parts gives the parts back. |
| StringUtil.TrimSpaceIdempotent | internal/metadata/parser.go:110-124 | Trimming twice is the same as trimming once. |
| StringUtil.ItoaRoundTrip | internal/renderer/variables.go:93-101 | Decimal formatting of an int reads back to the int. |
| StringUtil.ReplaceAllIsJoinSplit | internal/renderer/utils.go:19-26 | Replacing every occurrence is splitting and rejoining with the replacement. |

## Left out

- File, embedded-file and directory I/O are not modelled. Template files are a map from path to a decoded template (or a decode failure). The four discovery walkers (internal/templates/template.go:582-823) are given as lists of results.
- YAML decoding is not modelled. Cards and templates arrive decoded, and `interface{}` is the `Values.Value` union.
- Fonts, text drawing, line heights, vertical centring and placeholder drawing are floating-point raster work. The canvas records what is drawn (an image and its fit, a placeholder message, or the formatted lines of a text block), not the pixels.
- The scale and crop geometry of `CreateFittedImage`, image decoding and HTTP download are not modelled. Whether a path loads is a fixed predicate of the renderer. The image cache records the paths that loaded, not image data.
- Saving a PNG is a fixed function of the output path.
- Clearing the canvas to white is the canvas's starting state, not a recorded action.
- `strconv.FormatFloat` and the generic `%v` formatting are abstract functions (`Variables.Formatters`).
- `strings.Title` is a parameter (`titleCase`).
- The scanner's token-length error and read errors other than a file that cannot be opened are not modelled.
- `filepath.Join` is a "/" join that skips empty parts. `filepath.Clean` normalisation is not modelled.
- TemplateManager.BuiltinBasePath: ".." segments in an extends path can take the cleaned Go path out of "builtin/". For example, Go joins "builtin" and "../x.yaml" to "x.yaml", where the model gives "builtin/../x.yaml". The "builtin" prefix holds only for the uncleaned join.
- TemplateManager.LoadAndProcess: an `extends` chain is followed to depth 32 and deeper chains fail. The source recurses without bound and would not terminate on a cycle.
- Templates.MergeTemplates: the merged required list comes out in Go map order. The method promises only the set union without duplicates. The specification function `Templates.Merged` fixes first-occurrence order.
- Templates.MergeTemplates: the merged optional map is a fresh value, so the aliasing in the source (the result shares the extending template's optional map) is not modelled.
- Variables.FormatValue: floats and lists or maps are stored through the abstract formatters, so their digits and brackets are not stated.
- StringUtil.ToLower: lowercases ASCII letters only, where Go's `strings.ToLower` lowercases all of Unicode. Its one use, the `## footer` marker test, is unaffected.
- String lengths count characters, where Go counts UTF-8 bytes. This matters only for the ParseColor length check on non-ASCII input.
- `cmd/tcg-cardgen/main.go`, `pkg/cardgen/generator.go` and `pkg/types/types.go` are not part of this model. They hold command-line handling, orchestration and plain record declarations.

## Findings

| source | as written | input that shows it | evidently intended | confidence | as-written member | corrected member |
|---|---|---|---|---|---|---|
| internal/renderer/text.go:396-398 | The first word of a later segment is measured without the space that is drawn before it (text.go:427-429), so the recorded width falls short of the drawn width. | Segments "a" (plain) and "b" (bold), one unit per character, maxWidth 2: both words share one line, drawn as "a" + " b", 3 units wide. | Every non-first word on a line is measured with its leading space, so no line of two or more words is wider than maxWidth. | not executed | WordWrap.AsWrittenOverflows | WordWrap.CorrectedLinesFit |
