# free-tex-packer-core in Dafny

This project models the core of `free-tex-packer-core`, a library that
packs sprite images into texture atlases. It covers what the library
decides before and around the pixel work:

- how `packAsync` (src/index.ts) fills in default options, resolves the
  packer, packer method, exporter and filter, and reports failures with
  `getErrorDescription`; also `fixPath`, which normalises file paths;
- the strategy registries: `getPackerByType` (src/packers/index.ts),
  `getFilterByType` (src/filters/index.ts) and each packer's
  `getMethodByType`. These search their list case-insensitively and take
  the first match. Each packer's `getMethodProps` is an exact,
  case-sensitive switch on the method name, and its `defaultMethod` is a
  constant getter;
- `MaxRectsPacker.pack`, which turns the method name into engine flags
  and copies the engine's placements back into the sprites it was given.
  `OptimalPacker`, which refuses to pack, is modelled too;
- `Rect.hitTest` and `Rect.clone` (src/math/Rect.ts);
- `TextureRenderer` (src/utils/TextureRenderer.ts): the page size from
  `getSize` (bounding box, padding and extrude margin, power-of-two
  rounding) and the geometry of `renderItem`. Rotation remaps the source
  rectangle. The eight extrusion strips and the interior are recorded as
  blits into the page, where a blit is a destination rectangle plus the
  image rectangle it samples;
- `FilesProcessor` (src/FilesProcessor.ts): the naming of pages, the file
  list of each page, the pixel format and mime, and the pass-through
  `tinifyImage`.

Modules, one per file: `Wrappers` (Option, Result), `Text` (ASCII
lowering, integer-to-decimal), `Registry` (the shared first-match search),
`Geometry`, `TextureRendering`, `MaxRectsPacking`, `OptimalPacking`,
`Packers`, `Filters`, `TexPacker` (src/index.ts) and `FilesProcessing`.

Code that updates state in place is modelled imperatively:

- `TextureRenderer` is a class whose `render` and `renderItem` append to
  its blit list.
- `MaxRectsPacker.Pack` writes `frame` and `rotated` into heap-allocated
  `Sprite` objects.
- `FilesProcessor.start` and `processPackResultItem` are methods with the
  source's loops and counters.

The option handling and the registries are pure functions.

## Model

| member | source | states |
|---|---|---|
| Registry.FindType | src/packers/index.ts:16-25 | the result is the first index whose type, lowered, equals the lowered query, and there is none exactly when no entry matches |
| Registry.FindTypeExact | src/packers/index.ts:19-23 | when the lowered names are pairwise distinct, entry k is found exactly when it matches the query ignoring case |
| Registry.FindTypeIgnoresCase | src/packers/index.ts:17 | two queries that lower to the same string find the same entry |
| Packers.GetPackerByType | src/packers/index.ts:16-25 | a returned packer's type equals the query ignoring case; nothing is returned exactly when no listed packer matches |
| Packers.GetPackerByTypeExact | src/packers/index.ts:10-25 | each of MaxRectsBin, MaxRectsPacker and OptimalPacker is returned exactly for the casings of its own type |
| Packers.DefaultMethodOf | src/index.ts:358-360 | MaxRectsBin's default is the supplied one; MaxRectsPacker's is "Smart" and OptimalPacker's is "Automatic", each resolved to itself by the packer's own `getMethodByType` and described by its `getMethodProps` |
| Packers.MethodByType | src/index.ts:362 | MaxRectsBin answers with the supplied lookup; MaxRectsPacker answers with one of its six method names that equals the query ignoring case, and nothing exactly when no name matches; OptimalPacker answers "Automatic" exactly for the casings of "automatic" |
| Filters.GetFilterByType | src/filters/index.ts:11-20 | a returned filter's type equals the query ignoring case; nothing is returned exactly when no filter matches |
| Filters.GetFilterByTypeExact | src/filters/index.ts:5-20 | each filter (none, mask, grayscale) is returned exactly for the casings of its own type |
| OptimalPacking.Pack | src/packers/OptimalPacker.ts:13-15 | packing always fails with the "dummy" message, whatever the input |
| OptimalPacking.GetMethodProps | src/packers/OptimalPacker.ts:29-36 | props exist exactly for the exact id "Automatic" and are then name "Automatic" with an empty description; any other id fails with "Unknown method " + id |
| OptimalPacking.GetMethodByType | src/packers/OptimalPacker.ts:38-48 | a method is found exactly when the query is "automatic" ignoring case |
| OptimalPacking.DefaultMethodIsKnown | src/packers/OptimalPacker.ts:21-23 | every casing of the default method's name finds it, and it has props |
| MaxRectsPacking.EngineOptionsFor | src/packers/MaxRectsPacker.ts:40-46 | `pot` is never set, rotation is the packer's flag, and only one of the six method names can set `smart` or `square` or select edge logic |
| MaxRectsPacking.EngineOptionsOfMethods | src/packers/MaxRectsPacker.ts:40-46 | the smart, square and logic flags of each of the six method names |
| MaxRectsPacking.FlagsFollowMethodName | src/packers/MaxRectsPacker.ts:40-46 | for each method, `smart` is set iff the name starts with Smart, `square` iff the rest starts with Square, and edge logic is used iff the name does not end in Area; `pot` is never set; rotation is the packer's flag |
| MaxRectsPacking.UnknownMethodFlags | src/packers/MaxRectsPacker.ts:40-46 | a string naming no method sets neither smart nor square and selects area logic |
| MaxRectsPacking.LabelsOfMethods | src/packers/MaxRectsPacker.ts:88-105 | the display name of each flag combination the methods use: "Smart " when smart, then "square " (or "Square " first), then "edge logic" or "area logic" |
| MaxRectsPacking.GetMethodProps | src/packers/MaxRectsPacker.ts:88-105 | props exist exactly for the six exact method names, case-sensitively. Each method's name is the label of the flags `pack` uses for it, and its description is empty. Any other id fails with "Unknown method " + id |
| MaxRectsPacking.MethodPropsCoverMethods | src/packers/MaxRectsPacker.ts:88-105 | the ids with props are exactly the names of the six methods |
| MaxRectsPacking.GetMethodByType | src/packers/MaxRectsPacker.ts:107-117 | a found method is one of METHOD's and its name equals the query ignoring case; nothing is found exactly when no key matches |
| MaxRectsPacking.GetMethodByTypeExact | src/packers/MaxRectsPacker.ts:107-117 | each method is found exactly for the casings of its own name |
| MaxRectsPacking.DefaultMethodIsKnown | src/packers/MaxRectsPacker.ts:80-82 | the default method Smart is found by its name and has props |
| MaxRectsPacking.MaxRectsPacker.constructor | src/packers/MaxRectsPacker.ts:32-37 | the bin size and rotation flag are those given |
| MaxRectsPacking.MaxRectsPacker.Pack | src/packers/MaxRectsPacker.ts:39-74 | fails exactly when the engine returns no bin. Otherwise it returns the first bin's sprites in the engine's order. Each placed sprite gets the placement's x and y with its size unchanged, and `rotated` becomes old `rotated` or the placement's rotation. Sprites the bin does not place are unchanged |
| Geometry.Rect.Clone | src/math/Rect.ts:4-6 | the clone has the same x, y, width and height |
| Geometry.InstanceAgreesWithStatic | src/math/Rect.ts:8-10 | instance `hitTest` is the static test, and a clone tests the same as its original on either side |
| Geometry.HitTestIsPixelInclusion | src/math/Rect.ts:12-19 | for a rectangle of at least one pixel, `hitTest(a, b)` holds iff every pixel of a is a pixel of b |
| Geometry.HitTestReflexive | src/math/Rect.ts:12-19 | every rectangle lies within itself |
| Geometry.HitTestTransitive | src/math/Rect.ts:12-19 | containment is transitive |
| Geometry.HitTestAntisymmetric | src/math/Rect.ts:12-19 | two rectangles that lie within each other are equal |
| Geometry.HitTestBoundsSize | src/math/Rect.ts:12-19 | a contained rectangle is no wider and no taller than its container |
| TextureRendering.MaxRightIsMax | src/utils/TextureRenderer.ts:55-70 | the loop's width bounds every item's placed right edge, and is 0 or reached by some item |
| TextureRendering.MaxBottomIsMax | src/utils/TextureRenderer.ts:55-70 | the loop's height bounds every item's placed bottom edge, and is 0 or reached by some item |
| TextureRendering.CeilPow2 | src/utils/TextureRenderer.ts:76-88 | 0 maps to 0; for n >= 1 the result is a power of two, at least n, and halving it drops below n |
| TextureRendering.CeilPow2IsLeast | src/utils/TextureRenderer.ts:76-88 | the rounded value lies in [n, 2n) and is at most every power of two not below n |
| TextureRendering.GetSize | src/utils/TextureRenderer.ts:45-91 | the loop computes the page size of the items and options (the bounding box, margin and rounding that the lemmas below describe) |
| TextureRendering.SizeBoundsEveryItem | src/utils/TextureRenderer.ts:51-74 | without fixedSize, every item's placed edges plus padding and extrude fit in the page; before rounding each side is that margin plus the farthest edge, or the margin alone |
| TextureRendering.EmptyPageIsMargin | src/utils/TextureRenderer.ts:51-74 | with no items and no fixed size, each side before rounding is padding plus extrude |
| TextureRendering.FixedSizeKeepsOptions | src/utils/TextureRenderer.ts:46-51 | a fixed-size page without powerOfTwo has the configured width and height, 0 when absent |
| TextureRendering.PowerOfTwoRounding | src/utils/TextureRenderer.ts:76-88 | with powerOfTwo, each side of at least 1 becomes the least power of two not below it, and less than twice it |
| TextureRendering.Orient | src/utils/TextureRenderer.ts:133-151 | unrotated, the sprite's source rectangle is sampled from an image of the source size. Rotated, both the image's and the rectangle's sides swap, the rectangle's top is the sprite's left offset, and the gap to its right is the sprite's top offset |
| TextureRendering.RotationKeepsInside | src/utils/TextureRenderer.ts:140-151 | the rotation remap keeps the sampled area and the image area, and a sampled rectangle lies within the rotated image iff it lies within the source image |
| TextureRendering.ItemBlitsShape | src/utils/TextureRenderer.ts:127-200 | a skipped item draws nothing; otherwise it draws 9 blits with extrude and 1 without, and the interior blit is last |
| TextureRendering.ExtrusionTilesBlock | src/utils/TextureRenderer.ts:153-199 | with extrude e > 0, the nine destinations lie within the sprite grown by e on every side, share no pixel pairwise, and cover every pixel of it |
| Geometry.DisjointSharesNoPixel | src/utils/TextureRenderer.ts:153-199 | the separation stated of the nine extrusion destinations means that no pixel lies in two of them |
| TextureRendering.ExtrusionSamplesImageEdges | src/utils/TextureRenderer.ts:156-196 | each extrusion blit samples column 0 or ow-1, or row 0 or oh-1, of the whole image; all samples lie within the image when the sprite's source rectangle does |
| TextureRendering.ItemBlitsEndNearFrame | src/utils/TextureRenderer.ts:153-199 | assuming the placed frame has the size of the sprite's source rectangle (`FrameMatchesSprite`, which the packing step outside this model produces), no blit of an item ends more than e past its placed right and bottom edges |
| TextureRendering.BlitsEndWithinPage | src/utils/TextureRenderer.ts:93-105 | without fixedSize, and assuming every placed frame has the size of its sprite's source rectangle (`FrameMatchesSprite`, produced by the packing step outside this model), every blit of every item, extrusion included, ends within the page computed by getSize |
| TextureRendering.TextureRenderer.constructor | src/utils/TextureRenderer.ts:35-43 | the renderer keeps the data, sizes the page by getSize and holds every item's blits in order |
| TextureRendering.TextureRenderer.Render | src/utils/TextureRenderer.ts:93-105 | sets the page size from getSize, then the blit list is each item's blits in item order |
| TextureRendering.TextureRenderer.RenderItem | src/utils/TextureRenderer.ts:127-201 | appends exactly the item's blits: eight extrusion blits when extrude is set, then the interior blit; nothing when the item is skipped |
| Text.ToLowerLowers | src/packers/index.ts:17-20 | lowering keeps the length, leaves no upper-case ASCII letter, keeps every other character, maps each upper-case letter to its lower-case partner, and is idempotent |
| Text.NatToString | src/FilesProcessor.ts:38 | the decimal text of a counter is non-empty, all digits, and one digit exactly below 10 |
| Text.IntToString | src/FilesProcessor.ts:38 | the text is non-empty and starts with '-' exactly for negative numbers |
| Text.NatToStringValue | src/FilesProcessor.ts:38 | the decimal text of a counter denotes that counter, and its first digit is '0' only for 0, so there is no leading zero |
| Text.IntToStringValue | src/FilesProcessor.ts:38 | a non-negative counter's text is its decimal text; a negative counter's text is '-' followed by the decimal text of its magnitude |
| Text.NatToStringInjective | src/FilesProcessor.ts:38 | different non-negative counters have different decimal texts |
| Text.IntToStringInjective | src/FilesProcessor.ts:38 | different counters have different texts |
| TexPacker.ErrorDescription | src/index.ts:292-294 | the message is the package prefix followed by the text, unchanged |
| TexPacker.SplitJoinReplaces | src/index.ts:296-298 | splitting on backslashes and joining with slashes replaces each backslash by a slash and keeps every other character |
| TexPacker.FixPath | src/index.ts:296-298 | the fixed path is the input with every backslash replaced by a slash, every other character in place |
| TexPacker.FixPathNormalises | src/index.ts:296-298 | the fixed path has the same length and no backslash, other characters are kept, and fixing twice is fixing once |
| TexPacker.FillDefaults | src/index.ts:326-348 | every defaulted option is present afterwards |
| TexPacker.DefaultsOfNoOptions | src/index.ts:323-348 | with no options, each option gets its documented default |
| TexPacker.FillDefaultsKeepsSupplied | src/index.ts:323-348 | every supplied option is kept except powerOfTwo, which becomes true exactly when it was true; packer, method and exporter are untouched |
| TexPacker.FillDefaultsFillsAbsent | src/index.ts:326-348 | for any options, each of the 22 defaulted options the caller left out gets its documented default, and powerOfTwo is false unless given as true |
| TexPacker.FillDefaultsIdempotent | src/index.ts:326-348 | defaulting twice equals defaulting once |
| TexPacker.Validate | src/index.ts:323-392 | a successful validation has every defaulted option present. The stored packer, method, exporter and filter are exactly what the four lookups returned for the (defaulted) names. Its options are the defaulted ones, except that packer, method and exporter hold the names looked up (with their fallbacks), and allowRotation and allowTrim are forced false when that exporter cannot rotate or trim. Where lines 388-392 overwrite the four option fields with the resolved objects, the model keeps the names in the options and the objects in the result's own fields |
| TexPacker.Message | src/index.ts:353-385 | every descriptive validation error is the package prefix followed by the text for its kind: "Unknown packer ", "Unknown packer method ", "Unknown exporter " or "Unknown filter " and the offending name |
| TexPacker.ErrorOrder | src/index.ts:353-385 | an unknown packer is reported before anything else, then an unknown method, then a missing exporter, then an unknown filter; validation succeeds exactly when all four lookups succeed |
| TexPacker.Configure | src/index.ts:367-380 | as written, the "Unknown exporter" error is never raised |
| TexPacker.UnknownExporterNameGivesTypeError | src/index.ts:367-380 | a concrete unregistered exporter name ends in the TypeError, not in the descriptive error |
| TexPacker.ConfigureChecked | src/index.ts:378-380 | corrected order: the TypeError is never raised, and an "Unknown exporter" error names an exporter that does not exist |
| TexPacker.CheckedReportsUnknownExporter | src/index.ts:367-380 | where the code as written throws the TypeError, the corrected check reports the exporter by name, with the prefixed message; otherwise both give the same result |
| TexPacker.ConfigResolvesDefaults | src/index.ts:350-362 | the resolved packer and exporter are what looking up the (fallback) names returns, and the resolved packer, method and filter match their names ignoring case. A falsy packer resolves to MaxRectsBin, a falsy method to the packer's default, and a falsy exporter to JsonHash |
| TexPacker.ExporterForcesFlags | src/index.ts:375-376 | an exporter that cannot rotate or trim forces allowRotation or allowTrim to false; otherwise the defaulted value is kept |
| TexPacker.ErrorsArePrefixed | src/index.ts:353-385 | every failure of the corrected validation has a message starting with "@sar-creator/tex-packer: " |
| FilesProcessing.PixelFormat | src/FilesProcessor.ts:72 | the pixel format is RGBA8888 exactly for png and RGB888 otherwise |
| FilesProcessing.MimeOf | src/FilesProcessor.ts:73-74 | the mime is PNG exactly for png |
| FilesProcessing.PixelFormatMatchesMime | src/FilesProcessor.ts:72-74 | pixel format and mime agree: RGBA8888 goes with PNG |
| FilesProcessing.TinifyImage | src/FilesProcessor.ts:112-113 | the buffer is handed on unchanged |
| FilesProcessing.FilesPerPage | src/FilesProcessor.ts:100-105 | a page contributes one file exactly when base64Export is set, otherwise two |
| FilesProcessing.PageFilesLayout | src/FilesProcessor.ts:93-105 | the metadata file `fName.fileExt` comes first and holds the exporter's output for this page. The image file `fName.textureFormat` follows exactly when base64Export is off |
| FilesProcessing.ProcessPackResultItem | src/FilesProcessor.ts:64-110 | the file list handed to the callback is the page's metadata file and, without base64Export, its image file |
| FilesProcessing.PageName | src/FilesProcessor.ts:36-38 | a page name starts with textureName; a lone page is named textureName alone; with several pages the rest is the suffix followed by the counter's decimal text |
| FilesProcessing.PageNamesDistinct | src/FilesProcessor.ts:34-53 | with several pages, no two pages get the same name (the counter starts at suffixInitialValue and goes up by one per page) |
| FilesProcessing.FilesUpToLayout | src/FilesProcessor.ts:35-54 | the collected list holds FilesPerPage files for each page so far, and page k's files form the k-th block, in page order |
| FilesProcessing.FileCount | src/FilesProcessor.ts:45-47 | n pages give n files with base64Export and 2n files without |
| FilesProcessing.NamePages | src/FilesProcessor.ts:33-54 | once all pages are rendered, the callback receives every page's files in page order, page k named with counter suffixInitialValue + k |
| FilesProcessing.Start | src/FilesProcessor.ts:19-62 | the callback is invoked exactly when there is at least one page, with every page's files in page order |

## Left out

- Numbers are unbounded integers. Sizes and render options (frame and source sizes, `width`, `height`, `padding`, `extrude`, the page size) are natural numbers, so the negative `padding` or `extrude` that src/utils/TextureRenderer.ts accepts is not modelled. JavaScript floats, `NaN`, `null` and non-integer option values (and their string forms in page names) are not modelled. `scale` is kept as a `real` and only handed on in the exporter options.
- `toLowerCase` is modelled as ASCII lowering; Unicode case mapping is not modelled.
- Pixels: Jimp image creation, `blit` compositing, `clone`, `resize`, `rotate(90)`, the filter's `apply`, the `scale` resize, and buffer encoding. Blits are recorded as rectangles. Encoding is a parameter of each page.
- TextureRendering.CeilPow2: replaces the float `Math.round(Math.log2(n))` then `Math.pow` rounding with its integer meaning (least power of two not below n, and 0 for 0). It does not model float rounding, nor what `log2(0)` gives in JavaScript.
- The `maxrects-packer` engine is not part of this model. It is a function parameter, and MaxRectsPacking.MaxRectsPacker.Pack requires that every rectangle in the engine's first bin carries one of the submitted sprites and that no sprite is placed twice.
- MaxRectsBin, PackProcessor, the exporters (`getExporterByType`, `startExporter`, templates) and the filter classes are not part of this model. Their type strings come from the `PackerType` and `BitmapFilterType` enums, and OptimalPacker's one method is taken to be "Automatic" (the value of `OptimalPackerMethod.AUTOMATIC`, whose declaring `../types` module is not part of this model); MaxRectsBin's `defaultMethod` and `getMethodByType`, the exporter lookup and the exporter's rendering are parameters.
- Object identity: `Rect.clone` returns an equal value, not a distinct object. The copy `packAsync` makes of its options is implicit, because options are values.
- `loadImage`, `Promise.all` and all callback and asynchronous ordering are not modelled. `FilesProcessor.start` takes the rendered pages in `packResult` order. The callback invocation is the returned value, and `None` means it is never called, which happens with zero pages.
- `appInfo`, `detectIdentical`, trimming and `tinify` compression (commented out in the source) have no effect on what is modelled. `imageData` carries the buffer's bytes instead of their base64 text.
- src/packers/Packer.ts (an abstract base with constant getters) and the basic usage script (filesystem I/O only) are not part of this model.
- A custom exporter object passed as `exporter` can never be "Unknown"; only a named exporter is looked up.

## Findings

| source | as written | input that shows it | evidently intended | confidence | as-written member | corrected member |
|---|---|---|---|---|---|---|
| src/index.ts:375-380 | `exporter.allowRotation` is read before the `!exporter` check, so a missing exporter throws a TypeError and the "Unknown exporter" error is unreachable | `exporter: "Foo"` with no exporter registered under that name, and otherwise default options | check that the exporter exists before reading its flags, and report "Unknown exporter Foo" with the package prefix | not executed | TexPacker.Configure | TexPacker.ConfigureChecked |
