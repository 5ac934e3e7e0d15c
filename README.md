# tilelive-mapnik render core and URI normaliser, modelled in Dafny

tilelive-mapnik serves map tiles rendered by Mapnik. A request for tile
`(z, x, y)` is served by rendering a *metatile*: the block of
`metatile x metatile` tiles that holds it, clipped to the pyramid. The block is
rendered once, then sliced into tiles. While slicing, a tile whose pixels are all
one colour (a *solid* tile) is looked up in `solidCache` under its colour
fingerprint, so it is not encoded again. The render path also picks the
`Content-Type` header for the format and returns the keys of all the tiles the
metatile produces. Before this, `normalizeURI` gives the source descriptor's query
its defaults:
- metatile size, grid resolution, buffer and tile size, scale;
- render limits and output-cache settings;
- the metrics flag and the pool bounds.

The model has these modules:

- `Common`: `Option` and `Result`.
- `Strings`: decimal text, substring search, lower-casing, `split(':')[0]` and comma-joined numbers.
- `JsValues`: the JavaScript values the normaliser sees, with their truthiness and their `+v` / `String(v)` conversions.
- `Uri`: `normalizeURI` and `asBool` (lib/uri.js). It has spec functions and the imperative methods proved equal to them.
- `UriLemmas`: what normalisation promises: which fields it sets, what it keeps, when it throws, the defaults, and when a second run changes nothing.
- `UriScenarios`: the descriptors of test/uri.test.js and the settings they normalise to.
- `Metatile`: `calculateMetatile` (integer part) as a loop method against the function `MetatileOf`. It also holds the layout lemmas and the tile keys.
- `Headers`: the `Content-Type` choice.
- `SolidCache`: one `getImage` step. This covers the fingerprint, the counters of `_stats` and the cache.
- `Slicing`: `sliceMetatile` as written and corrected, and `encodeSingleTile`.
- `Render`: the pool-release paths of `_renderMetatile`, and the classes:
  - `Pool`;
  - `Source`, whose `_stats` and `solidCache` fields the methods `GetImage`, `SliceTiles`, `EncodeTiles` and `RenderMetatile` update in place.

The engine's answers are inputs of the model. These are:
- what the pool lends;
- whether `resize`/`extent` or `render` throws;
- for each tile, what `isSolid`, `painted()` and `encode` report;
- the order in which the tiles' callbacks arrive.

The clock is not modelled at all. Node's `os.cpus()`, `path.resolve` and
`querystring.parse` are replaced by the `Uri.Env` parameter.

`Source.RenderMetatile` uses the corrected definitions of the two findings below:
- `Slicing.SliceMetatile`, which reports the first error only;
- a release of the pool's map in every path (`Render.RenderEvents`).

The code as written is modelled beside them, on values
(`Slicing.SliceMetatileAsWritten`, `Render.RenderEventsAsWritten`) and on the
source's state (`Source.SliceTilesAsWritten`, `Source.RenderMetatileAsWritten`,
whose pool keeps the map lent when `resize` or `extent` throws).

## Model

| member | source | states |
|---|---|---|
| Uri.NormalizeUri | lib/uri.js:13-101 | Step by step on the descriptor's fields: the result is `NormalizedUri`. So it throws, or gives `strict` and the query their defaults, exactly as the lemmas of `UriLemmas` state. |
| Uri.AssignNumbers | lib/uri.js:35-65 | The five in-place assignments of `base`, `metatile`, `resolution`, `bufferSize`, `tileSize` and `scale` give `WithNumbers`. |
| Uri.AssignNumberOr | lib/uri.js:39-43 | One `if (!v) v = d; else v = +v` block: the field becomes the default when falsy, its numeric reading otherwise; no other field changes. |
| Uri.AssignLimits | lib/uri.js:67-71 | The in-place update of `limits` gives `WithLimits`: an object with `render` defaulting to 0, or the TypeError of a truthy primitive. |
| Uri.AssignCache | lib/uri.js:73-85 | The in-place update of `metatileCache` gives `WithCache`: `ttl` 0 when falsy, `deleteOnHit` false when absent and `asBool` of it otherwise, or the TypeError of a truthy primitive. |
| Uri.AssignFlags | lib/uri.js:87-99 | The three assignments give `WithFlags`: `metrics` as a boolean, `poolSize` the CPU count and `poolMaxWaitingClients` 32 when undefined. |
| Uri.AsBoolText | lib/uri.js:104-107 | A value with no numeric reading is false exactly when its text lower-cases to `false`. |
| Uri.WordIsNotNumber | lib/uri.js:105 | `+s` of a word that starts with a letter and is not `Infinity` is NaN. |
| Uri.WordAsBool | lib/uri.js:104-107 | `asBool` of such a word is false exactly when it is `false` in any letter case. |
| Uri.AsBoolTrueWord | test/uri.test.js:61-70 | `asBool('true')` is true. |
| Uri.AsBoolFalseWord | lib/uri.js:106 | `asBool('false')` is false. |
| Uri.AsBoolIgnoresCase | lib/uri.js:106 | `asBool('FALSE')` is false: the text is lower-cased first. |
| Uri.AsBoolRemovesFirstOnly | lib/uri.js:106 | `asBool('falsefalse')` is true: `replace` removes only the first `false`. |
| Uri.AsBoolUndefined | lib/uri.js:106 | `asBool(undefined)` is true, since `String(undefined)` is `undefined`. |
| Uri.AsBoolNumbers | lib/uri.js:105-106 | Booleans keep their value; `null`, `'0'` and `''` are false, `'1'` is true. |
| Uri.AsBool | lib/uri.js:104-107 | `asBool`: a value with a numeric reading is true exactly when that number is non-zero; otherwise true exactly when its lower-cased text still has characters after the first `false` is removed. |
| Uri.NumberOr | lib/uri.js:39-43 | `if (!v) v = d; else v = +v`: the default for a falsy value, the numeric reading (possibly NaN) otherwise. |
| Uri.WithNumbers | lib/uri.js:35-65 | The query with `base` (default base when falsy), `metatile` 2, `resolution` 4, `bufferSize` 128 (when not a finite number), `tileSize` 256 and `scale` 1 applied. |
| Uri.WithLimits | lib/uri.js:67-71 | `limits`, or `{}` when falsy, with `render` 0 when undefined, or the TypeError strict mode raises when `limits` is a truthy primitive. |
| Uri.WithCache | lib/uri.js:73-85 | `metatileCache`, or `{}` when falsy, with `ttl` (0 when falsy) and `deleteOnHit` (`asBool` of it when present, false otherwise), or the TypeError of a truthy primitive. |
| Uri.WithFlags | lib/uri.js:87-99 | `metrics` false when undefined and `asBool` of it otherwise; `poolSize` the CPU count and `poolMaxWaitingClients` 32 when undefined. |
| Uri.NormalizedQuery | lib/uri.js:35-99 | The four steps in source order, stopping at the first TypeError. |
| Uri.QueryObject | lib/uri.js:29-33 | The query, or `{}` when falsy, parsed when text; a truthy primitive of another kind is the TypeError of assigning its `base`. |
| Uri.NormalizedUri | lib/uri.js:13-99 | `strict` false when undefined, and `query` the normalised query object, or the first TypeError. |
| UriLemmas.NumbersStep | lib/uri.js:35-65 | Lines 35-65 add exactly their six fields, with their defaults and coercions, and keep every other field. |
| UriLemmas.LimitsStep | lib/uri.js:67-71 | Without a truthy primitive `limits`, the step succeeds: it changes only `limits`, keeps its fields and sets `render` to 0 when undefined. |
| UriLemmas.CacheStep | lib/uri.js:73-85 | Without a truthy primitive `metatileCache`, the step succeeds and changes only `metatileCache`, in the way `AssignCache` states. |
| UriLemmas.FlagsStep | lib/uri.js:87-99 | Lines 87-99 add exactly `metrics`, `poolSize` and `poolMaxWaitingClients` and keep every other field. |
| UriLemmas.HoldersUntouched | lib/uri.js:35-73 | The steps before `limits` and `metatileCache` leave them as the caller gave them, so those values decide the errors. |
| UriLemmas.NormalizedQueryFails | lib/uri.js:67-85 | Normalising a query throws exactly when `limits` or `metatileCache` is a truthy primitive; `limits` is checked first. |
| UriLemmas.NormalizedUriFails | lib/uri.js:29-85 | Normalising a descriptor throws exactly when its query is a truthy non-text primitive, or the query object has a primitive `limits`/`metatileCache`. |
| UriLemmas.FrameChain | lib/uri.js:35-99 | The four steps together keep every field outside the ones they set. |
| UriLemmas.NormalizedFrame | lib/uri.js:35-99 | The normalised query has the given fields plus the normalised ones, and agrees with the given query elsewhere. |
| UriLemmas.NormalizedNumbers | lib/uri.js:35-65 | The normalised values of the fields of lines 35-65, in terms of the given query. |
| UriLemmas.NormalizedHolders | lib/uri.js:67-85 | The normalised `limits` and `metatileCache`, in terms of the given query. |
| UriLemmas.NormalizedFlags | lib/uri.js:87-99 | The normalised `metrics`, `poolSize` and `poolMaxWaitingClients`, in terms of the given query. |
| UriLemmas.NormalizedFields | lib/uri.js:35-99 | Every field of the normalised query is described by the given query: no line reads a field an earlier line set. |
| UriLemmas.FieldTypes | lib/uri.js:35-99 | The normalised fields have their types: numbers, a finite `bufferSize`, objects with `render`, `ttl` and a boolean `deleteOnHit`, a boolean `metrics`, defined pool bounds. |
| UriLemmas.NormalizedQueryShape | lib/uri.js:35-99 | A normalised query gains exactly the normalised fields, with those types, and keeps every other field. |
| UriLemmas.NormalizedQueryKeeps | lib/uri.js:35-99 | Values the caller gave survive: a truthy `base`, a finite `bufferSize` (0 too), defined pool bounds, a boolean `metrics`. |
| UriLemmas.LimitsOf | lib/uri.js:67-71 | The `limits` object keeps its fields; `render` is kept when defined, 0 otherwise. |
| UriLemmas.NormalizedLimitsKeep | lib/uri.js:67-71 | The same about `NormalizedQuery`. |
| UriLemmas.CacheOf | lib/uri.js:73-85 | The `metatileCache` object keeps its other fields. `ttl` is kept when truthy and 0 otherwise; `deleteOnHit` is `asBool` of it when present, false otherwise. |
| UriLemmas.NormalizedCacheKeep | lib/uri.js:73-85 | The same about `NormalizedQuery`. |
| UriLemmas.DefaultsOf | lib/uri.js:35-99 | What the field descriptions leave for an empty query. |
| UriLemmas.EmptyQueryDefaults | lib/uri.js:35-99 | An empty query normalises to exactly the documented defaults: `metatile` 2, `resolution` 4, `bufferSize` 128, `tileSize` 256, `scale` 1, `render` 0, `ttl` 0, `deleteOnHit` false, `metrics` false, `poolSize` the CPU count, `poolMaxWaitingClients` 32. |
| UriLemmas.NormalizedUriShape | lib/uri.js:13-33 | Apart from the path fields `pathname`, `hostname` and `host`, the descriptor gains only `strict` (false when undefined) and `query` (the default query when falsy), and its other fields keep their values. |
| UriLemmas.NumberOrFixed | lib/uri.js:39-43 | A truthy number is left as it is by the coercion. |
| UriLemmas.LimitsFixed | lib/uri.js:69-71 | A `limits` object with `render` defined is left as it is. |
| UriLemmas.CacheFixed | lib/uri.js:79-85 | A `metatileCache` object with a truthy or zero `ttl` and a boolean `deleteOnHit` is left as it is. |
| UriLemmas.NumbersFixed | lib/uri.js:35-65 | A second normalisation keeps the fields of lines 35-65 once the coerced ones are truthy. |
| UriLemmas.HoldersFixed | lib/uri.js:67-85 | A second normalisation keeps `limits` and `metatileCache`. |
| UriLemmas.FlagsFixed | lib/uri.js:87-99 | A second normalisation keeps the fields of lines 87-99. |
| UriLemmas.FieldsFixed | lib/uri.js:35-99 | A second normalisation changes nothing unless a coerced numeric field came out falsy. |
| UriLemmas.NormalizedQueryIdempotent | lib/uri.js:35-99 | Normalising a normalised query again gives it back, provided its coerced numeric fields are truthy. |
| UriLemmas.ZeroText | lib/uri.js:42 | `+'0'` is 0. |
| UriLemmas.MetatileZeroText | lib/uri.js:39-43 | `metatile: '0'` is truthy text, so it is coerced to 0, which is falsy: this is the case where idempotence fails. |
| UriScenarios.QueryOfObject | lib/uri.js:29-33 | A descriptor whose query is an object gets that object normalised as its query. |
| UriScenarios.CacheSettingsOf | lib/uri.js:73-85 | The `ttl` and `deleteOnHit` that `makeUri(cache)` normalises to, for every `cache` that is not a truthy primitive. |
| UriScenarios.CacheUnset | test/uri.test.js:15-22 | With no cache config: `ttl` 0, `deleteOnHit` false. |
| UriScenarios.CacheEmpty | test/uri.test.js:23-30 | `{}`: `ttl` 0, `deleteOnHit` false. |
| UriScenarios.CacheTtl | test/uri.test.js:31-40 | `{ttl: 1000}`: `ttl` 1000, `deleteOnHit` false. |
| UriScenarios.CacheKeepFalse | test/uri.test.js:41-50 | `{deleteOnHit: false}`: `ttl` 0, `deleteOnHit` false. |
| UriScenarios.CacheKeepTrue | test/uri.test.js:51-60 | `{deleteOnHit: true}`: `ttl` 0, `deleteOnHit` true. |
| UriScenarios.CacheTrueText | test/uri.test.js:61-70 | `{deleteOnHit: 'true'}`: `deleteOnHit` true. |
| UriScenarios.CacheTtlAndTrue | test/uri.test.js:71-80 | `{ttl: 1000, deleteOnHit: true}`: both kept. |
| UriScenarios.MetricsSettingOf | lib/uri.js:87-91 | The flag `makeUri(metrics)` normalises to: false when unset, else `asBool` of the value. |
| UriScenarios.MetricsScenarios | test/uri.test.js:110-123 | `metrics` defaults to false; `false` and `true` stay as they are. |
| JsValues.Trim | lib/uri.js:105 | `trim` (used by `+v` on text) leaves no white space at either end and never lengthens the text. |
| JsValues.NonNumericText | lib/uri.js:106 | `String(v)` of a value whose numeric reading is NaN is never empty. |
| Strings.NatToString | lib/render.js:117 | A number's decimal text is a non-empty run of digits that starts with `0` only for 0. |
| Strings.ParseNatToString | lib/render.js:117 | Decimal text reads back as the number it was made from. |
| Strings.IndexOf | lib/render.js:174-177 | `indexOf` finds the first occurrence of the pattern, or gives -1 exactly when there is none. |
| Strings.RemoveFirst | lib/uri.js:106 | `replace` with a text removes its first occurrence, if any, and otherwise changes nothing. |
| Strings.RemoveFirstEmpty | lib/uri.js:106 | Removing the first `false` leaves nothing exactly when the text was empty or `false`. |
| Strings.Lower | lib/uri.js:106 | `toLowerCase` maps each character alone and keeps the length. |
| Strings.Before | lib/render.js:181 | `split(':')[0]` is the longest prefix without `:`, ending where the first `:` is. |
| Strings.ParseJoinNats | lib/render.js:117 | Comma-joined numbers read back as the same list. |
| Strings.JoinNatsInjective | lib/render.js:117 | Different lists of numbers join to different texts. |
| Metatile.Snap | lib/render.js:20-21 | The start of the metatile column or row holding `v`: at most `v` and less than `m` below it. |
| Metatile.Grid | lib/render.js:28-33 | The tiles the nested loops push: columns `x0 + dx` for `dx < w`, each listing `y0 + dy` for `dy < h`. |
| Metatile.MetatileOf | lib/render.js:14-46 | The metatile of a request. The origin is snapped to the metatile grid and the spans are clipped to the pyramid. The sizes are the spans times the tile size, and the tiles are those of `Grid`. |
| Metatile.TileKey | lib/render.js:60 | The format, then z, x and y, joined by commas (also lines 91 and 233). |
| Metatile.SnapRemainder | lib/render.js:20-21 | `v - v % m` is the start of the column or row holding `v`: a multiple of `m` (remainder 0), at most `v` and less than `m` below it (the latter two from `Snap`'s contract). |
| Metatile.MultipleRemainder | lib/render.js:20-21 | A multiple of the metatile size leaves remainder 0. |
| Metatile.SmallMultiple | lib/render.js:20-21 | The only multiple of the metatile size below it is 0. |
| Metatile.Span | lib/render.js:24-25 | The span is capped by the metatile size, the pyramid and the distance to its edge. |
| Metatile.CalculateMetatile | lib/render.js:14-46 | The nested loops build exactly `MetatileOf`: snapped origin, clipped spans, pixel sizes and tiles in column order. |
| Metatile.GridLength | lib/render.js:28-33 | The loops produce `metaWidth * metaHeight` tiles (none when a span is not positive). |
| Metatile.GridAt | lib/render.js:28-33 | Position `dx * metaHeight + dy` holds tile `[z, x + dx, y + dy]`: outer loop dx, inner loop dy. |
| Metatile.GridMembers | lib/render.js:28-33 | A tile is produced exactly when it is at zoom z and inside the metatile's rectangle. |
| Metatile.GridDistinct | lib/render.js:28-33 | No tile is produced twice. |
| Metatile.MetatileLayout | lib/render.js:14-46 | The metatile's sizes are the spans times the tile size, and it holds `metaWidth * metaHeight` tiles in loop order. Each tile lies inside the rectangle and the pyramid (below `2^z`), and none repeats. |
| Metatile.MetatileCoversRequest | lib/render.js:19-33 | The metatile of a tile inside the pyramid contains that tile. |
| Metatile.ZoomZero | lib/render.js:16-33 | At zoom 0 the single tile is rendered alone, whatever the metatile size. |
| Metatile.DefaultGrid | lib/render.js:28-33 | The 2 x 2 block at (2, 2), columns first. |
| Metatile.DefaultMetatileExample | lib/render.js:14-46 | Tile (2, 2, 2) with metatile 2 and 256-pixel tiles gives the 512 x 512 block at (2, 2) with its four tiles. |
| Metatile.ClippedMetatileExample | lib/render.js:23-33 | At zoom 1 a metatile of 4 is clipped to the 2 x 2 tiles that exist. |
| Metatile.OutsideThePyramid | lib/render.js:20-33 | Tile (1, 3, 0) with metatile 2 snaps to column 2, outside the pyramid, and the metatile has no tiles. |
| Metatile.TileKeyRoundTrip | lib/render.js:60 | A tile key reads back as its tile. |
| Metatile.TileKeyInjective | lib/render.js:60 | Distinct tiles of one format have distinct keys. |
| Metatile.TileKeys | lib/render.js:232-234 | One key per tile, in tile order, and each reads back as its tile. |
| Metatile.MetatileKeysDistinct | lib/render.js:232-234 | The keys `_renderMetatile` returns are pairwise distinct. |
| Headers.ContentTypeFor | lib/render.js:165-182 | The header for a format: JSON for `utf`, PNG when it names `png`, JPEG when it names `jpeg` or `jpg`, otherwise the lookup of the part before its first `:`. |
| Headers.ContentTypeCases | lib/render.js:165-182 | Each header comes from exactly one case. `utf` gives JSON. Any other format naming `png` gives PNG, even when it also names `jpeg`. Then `jpeg`/`jpg` give JPEG. Anything else is looked up by the part before its first `:`. |
| Headers.ContainsPrefix | lib/render.js:174 | A format that starts with a pattern contains it. |
| Headers.PngWithOptions | lib/render.js:172-175 | `png8:m=h` is served as `image/png`. |
| Headers.Png32 | lib/render.js:174-175 | `png32` is served as `image/png`. |
| Headers.UtfIsJson | lib/render.js:165-169 | `utf` is served as `application/json`. |
| Headers.JpegQuality | lib/render.js:176-178 | `jpeg80` is served as `image/jpeg`. |
| Headers.JpegWithOptions | test/render.test.js:12-21 | `jpeg:quality=20` is served as `image/jpeg`. |
| Headers.OtherFormatLookup | lib/render.js:179-181 | `webp:quality=80` is looked up as `webp`. |
| Headers.WebpExtension | lib/render.js:181 | `'webp:quality=80'.split(':')[0]` is `webp`. |
| SolidCache.Fingerprint | lib/render.js:117 | The format name followed directly by `r,g,b,a` in decimal. |
| SolidCache.PixelKey | lib/render.js:106-119 | The cache key of a probed tile: empty when not solid, the pixel's decimal text for `utf`, the fingerprint of its channels otherwise. |
| SolidCache.ImageStep | lib/render.js:104-154 | One `getImage`: a failed probe is reported. Otherwise the counters go up, and a cached solid tile is served from the cache. Anything else is encoded: a failed encode is reported, and a solid buffer is tagged with its key and, unless `utf`, cached. |
| SolidCache.Uint32 | lib/render.js:113-116 | ToUint32 lands in `[0, 2^32)` and agrees with the pixel modulo 2^32. |
| SolidCache.Unpack | lib/render.js:113-116 | The four channels are bytes that together re-form the pixel as a 32-bit value. |
| SolidCache.ShiftSplit | lib/render.js:113-116 | Shifting right by 8, 16 and 24 bits peels off one byte at a time. |
| SolidCache.UnpackInjective | lib/render.js:113-116 | The channels determine the 32-bit pixel. |
| SolidCache.PixelKeyEmpty | lib/render.js:106-119 | A non-solid tile has the empty key, a solid one a non-empty key. |
| SolidCache.FingerprintInjective | lib/render.js:106-119 | For one image format, two solid tiles share a key exactly when their pixels agree as 32-bit values. |
| SolidCache.FingerprintAcrossFormats | lib/render.js:117 | The key does not separate format and channels: `png` with red 80 and `png8` with red 0 share `png80,0,0,255`. |
| SolidCache.ImageStepCounters | lib/render.js:121-127 | A probed tile adds one to `total`, to `solid` exactly when solid, to `solidPainted` exactly when solid and painted, and to `encoded` exactly when not served from the cache. A failed probe counts nothing, and the counters keep their order. |
| SolidCache.CacheHit | lib/render.js:125 | A solid tile whose key is cached is served the cached buffer without encoding, and the cache is unchanged. |
| SolidCache.CacheWrite | lib/render.js:133-143 | The cache changes exactly when a solid, non-`utf` tile encodes successfully, and only at its key, to the buffer returned. |
| SolidCache.UtfNeverCached | lib/render.js:139-141 | `utf` grids never enter the cache. |
| SolidCache.ImageStepTags | lib/render.js:133-143 | The cache stays consistent (each buffer tagged with its key). Every buffer served for a solid tile carries that tile's key, and a non-solid tile is served untagged. |
| SolidCache.ImageStepErrors | lib/render.js:104-153 | A failed probe or a failed encode reaches the callback as that error. |
| Slicing.Collected | lib/render.js:59-79 | The `tiles` map after the first `k` arrivals: each success stored under its tile's key with its image and the headers. |
| Slicing.DeliveredAsWritten | lib/render.js:49-86 | The callbacks as written after the first `k` arrivals. `{}` comes at once for an empty metatile, and every failure is reported. The map so far goes out when the `tile_num`-th arrival is the last and succeeds. |
| Slicing.Delivered | lib/render.js:49-86 | The evidently intended callbacks after the first `k` arrivals: the first failure and nothing after it, or the full map once the last arrives with no failure. |
| Slicing.SliceMetatileAsWritten | lib/render.js:49-86 | The loop with its `tile_num` counter and `tiles` map makes exactly the callbacks of `DeliveredAsWritten`. |
| Slicing.AsWrittenCallbacks | lib/render.js:56-83 | As written, every failure is reported, and a map goes out exactly when the last result to arrive succeeds: `failures` or `failures + 1` callbacks. |
| Slicing.AsWrittenPartialMap | lib/render.js:64-82 | Two tiles, the first failing: the caller hears the error, then gets a map lacking the failed tile. |
| Slicing.AsWrittenTwoErrors | lib/render.js:66-68 | Two failing tiles: the caller is called twice with errors. |
| Slicing.FirstFailure | lib/render.js:66-68 | There is a first failure exactly when some result failed. |
| Slicing.FirstFailureIsFirst | lib/render.js:66-68 | The first failure is an arrival that failed with that error after only successes. |
| Slicing.SliceMetatile | lib/render.js:49-86 | The corrected loop, whose error counter counts, makes exactly the callbacks of `Delivered`. |
| Slicing.DeliveredSoFar | lib/render.js:64-83 | Before the last result, the corrected slicer has called back at most once, and only with the first error. |
| Slicing.DeliveredOnce | lib/render.js:49-86 | The corrected slicer calls back exactly once: `{}` for an empty metatile, the first error if any tile failed, otherwise the full map. |
| Slicing.CollectedEntries | lib/render.js:59-79 | The map's keys are the keys of the tiles that succeeded so far, each with its image and the headers. |
| Slicing.CollectedAll | lib/render.js:59-82 | With no failure, the map holds every tile under its key and nothing else, each with the image `getImage` delivered. |
| Slicing.NoFailures | lib/render.js:66-79 | No failure among the first results means each of them succeeded. |
| Slicing.CleanRunsAgree | lib/render.js:64-83 | With no failure, the code as written and the corrected code call back alike. |
| Slicing.EncodeSingleTile | lib/render.js:88-100 | The caller gets the error exactly when encoding failed, otherwise a map whose only key is that of `(options.z, options.x, options.y)`. |
| Slicing.SingleTileAgrees | lib/render.js:88-100 | For one tile, `encodeSingleTile` calls back as slicing would, as written or corrected. |
| Render.ImageRun | lib/render.js:59-64 | One arrival per `getImage` call, in the callbacks' order. |
| Render.ImageRunValid | lib/render.js:102-155 | A run of `getImage` steps keeps the counters in order and the cache consistent, and leaves `render` alone. |
| Render.TileRun | lib/render.js:215-221 | A rendered metatile runs `getImage` once per tile when sliced, once when encoded alone. |
| Render.ReleasesAsWritten | lib/render.js:193-228 | As written, releases balance acquisitions on every path except a map whose `resize`/`extent` throws. |
| Render.ResizeThrowLeaks | lib/render.js:204-205 | A concrete leak: acquire, `resize` throws, the caller hears the error, and no release follows. |
| Render.ReleasesBalanced | lib/render.js:193-228 | With the scoped release, a lent resource is released exactly once, before the caller is called. A rejected acquire only reports its error. |
| Render.ScopedAgreesElsewhere | lib/render.js:193-228 | The fix changes the events only on the `resize`/`extent` path. |
| Render.Pool.constructor | lib/render.js:193 | A new pool has nothing lent. |
| Render.Pool.Acquire | lib/render.js:193 | Acquiring lends one more map. |
| Render.Pool.Release | lib/render.js:196 | Releasing gives one back. |
| Render.Source.constructor | lib/render.js:121-127 | A new source has zero counters and an empty `solidCache`. |
| Render.Source.GetImage | lib/render.js:102-155 | Updating `_stats` and `solidCache` in place does the `ImageStep` of the old state, so the lemmas of `SolidCache` hold of it. The counter order and cache consistency are kept. |
| Render.Source.RunTiles | lib/render.js:59-64 | The `getImage` calls, in arrival order, leave the counters and cache of `ImageRun` and give its arrivals. |
| Render.Source.SliceTiles | lib/render.js:59-86 | The `getImage` calls in arrival order leave the state of `ImageRun`, then deliver the corrected slicing of their results. |
| Render.Source.SliceTilesAsWritten | lib/render.js:49-86 | The same calls, then the slicing as written (`DeliveredAsWritten`): every error reported, and a partial map when the last arrival succeeds. |
| Render.Source.EncodeTiles | lib/render.js:215-221 | A metatile of several tiles is sliced, a single tile encoded alone; the state and the callbacks are those of `TileRun`/`Deliveries`. |
| Render.Source.EncodeTilesAsWritten | lib/render.js:215-221 | The same branch with the slicing as written: the callbacks are those of `DeliveriesAsWritten`. |
| Render.Source.RenderMetatile | lib/render.js:158-235 | Returns the keys of the metatile's tiles and leaves the pool as it found it. The events are the scoped-release path followed by the first-error slicing. `_stats.render` goes up once the map is configured, and the tile steps count only after a clean render. |
| Render.Source.RenderMetatileAsWritten | lib/render.js:158-235 | The code as written: the same keys, counters and cache. The events are the as-written release path followed by the as-written slicing. The pool ends with one more map lent exactly when a lent map's `resize`/`extent` throws, so the leak shows in the pool's state. |
| Render.DeliveriesAsWritten | lib/render.js:215-221 | What the caller receives after a clean render with the slicing as written: the as-written callbacks for several tiles, the single-tile answer otherwise. |
| Render.Deliveries | lib/render.js:215-221 | What the caller receives after a clean render: the corrected slicing for several tiles, the single-tile answer otherwise. |
| Render.RenderEventsAsWritten | lib/render.js:193-228 | The acquire/release/callback events as written. A rejected acquire only reaches `.catch`. A pool `Error` is released, then reported. A `resize`/`extent` throw reaches `.catch` with no release. A `render` throw or error is released, then reported. Otherwise the map is released and the slicing's callbacks follow. |
| Render.RenderEvents | lib/render.js:193-228 | The same events with `resize`/`extent` inside the `try`, so their throw releases the map before the error is reported. |
| Render.SingleTileKey | lib/render.js:88-100 | The key `encodeSingleTile` stores a one-tile metatile under is the one key `_renderMetatile` returns. |
| Render.OneByOne | lib/render.js:215 | A metatile with a single tile is one tile wide and one tile high. |

## Left out

- Bounding box (lib/render.js:6-10, 17, 35-38, 44): floating-point geography. `Metatile` has no `bbox` field.
- Timing statistics (`Date.now`, the `encode` and `render` fields of the per-tile stats, `get_metrics`) and the `stats` object attached to each tile: time is not modelled.
- `mime.getType`: the header is `Lookup(extension)`; the mime table is not part of this model.
- The Mapnik engine (`mapnik.Image`/`Grid`, `view`, `isSolid`, `painted`, `encode`, `render`): its answers are inputs (`TileAnswers`, `EngineRun`).
- Pool concurrency and the interleaving of asynchronous callbacks from different requests: one request at a time, one arrival order for its tiles, each tile's `isSolid`→`encode` chain taken as one step.
- `Source.GetImage`: the counters and cache updates of one tile are applied together. Interleaving between the `isSolid` and `encode` callbacks of different tiles, which can make two tiles of the same colour both encode, is not modelled.
- `Uri.NormalizedUri`/`UriLemmas.NormalizedUriShape`: leave `pathname`, `hostname` and `host` as given. Lines 17-27 add `pathname` when absent, rewrite it through `path.resolve`, and delete `hostname` and `host` for the hostnames `.` and `..`; the model does none of this, and the shape lemma says nothing about those three fields.
- lib/uri.js:9-11, 17-27 and 36 (`url.parse`, `pathname`, `hostname`, `path.resolve`/`dirname`): the resulting default `base` enters as `Env.defaultBase`; `querystring.parse` as `Env.parseQuery`; `os.cpus().length` as `Env.cpus`.
- `+v` on text: decimal literals with an optional sign, fraction and `Infinity`; hexadecimal, octal, binary and exponent forms, and the rounding to doubles, are not modelled (`StringToNumber` is `NaN` for them). `+v` on an object is NaN (arrays with one element are not modelled).
- `toLowerCase` is modelled on ASCII letters only.
- Aliasing: the shared `stats` object of `Object.assign` and mutation of a nested object the caller still holds; the model's query is a value.
- A throw part-way through normalisation leaves earlier fields assigned in the caller's object; the model returns the error only.
- `Metatile.CalculateMetatile`/`Source.RenderMetatile` (also `Metatile.Snap`, `Metatile.MetatileOf`, `Source.RenderMetatileAsWritten`): require a metatile size of at least 1, non-negative integer coordinates and an integer `tileSize`. The normaliser can also yield 0, negative, fractional or NaN sizes (for example `?metatile=0`, which lib/uri.js:42 turns into 0); those descriptors are not modelled.
- `SolidCache.PixelKey`: the pixel is an integer and `solid` a boolean, so `solid !== false` is `solid`.
- `Metatile.TileKey`: the decimal text of numbers at or above 1e21, and the loss of precision at zoom levels above 53, are not modelled.
- The options plumbing of `_renderMetatile` (lines 166-168, 185-191, 201-203: `layer`, `fields`, `resolution`, `metrics_enabled`, `variables`, `scale`, `source`): no effect on the modelled state.
- Callbacks that throw, and a `.catch` reached from them.
- `Render.EngineRun`: `map.resize` and the `extent` setter are one `configure` answer, since either throwing takes the same path.

## Findings

| source | as written | input that shows it | evidently intended | confidence | as-written member | corrected member |
|---|---|---|---|---|---|---|
| lib/render.js:56-82 | `err_num` is a `const 0`, so `if (!err_num) return callback(err)` reports every failed tile. `tile_num` counts failures too, so the map still goes out when the last callback succeeds. | A metatile of two tiles whose first `getImage` fails and second succeeds: the caller is called with the error, then with a map lacking the first tile. | Report the first error once and nothing after it; otherwise deliver the full map once. | not executed | Slicing.AsWrittenPartialMap | Slicing.DeliveredOnce |
| lib/render.js:204-228 | `map.resize` and the `extent` setter run outside the `try`. Their exception reaches `.catch`, which calls back without releasing the map. | A lent map whose `resize` throws: events `[Acquired, Called(Failure(e))]` and no release. | Release the map on every path, as the `try`/`catch` does for `render`. | not executed | Render.ResizeThrowLeaks | Render.ReleasesBalanced |
