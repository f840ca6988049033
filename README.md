# mbtiles tile server: the tile-request engine

This project is a Dafny model of the request engine of `tileserver.py`, a server
that publishes map tiles from `.mbtiles` SQLite containers. Almost all of that
engine is the PHP `MapTileController`, which sits commented out in the file. The
model covers these parts:

- **Routing.** `serveTile` records the request in the controller's fields. On the
  XYZ route it flips the row to TMS order in place (`y = 2^z - 1 - y`). It then
  picks a handler by the lower-cased extension and by whether a JSONP callback is
  present.
- **The TMS route.** `serveTmsTile` marks the controller as TMS and suffixes the
  layer with `-tms`. `imageTile` cuts the suffix off before it opens
  `<layer>.mbtiles`. `etag()` and `getUTFgrid` look the file up first (see
  Findings), and the model's controller uses the corrected order. Even the
  `imageTile` order holds only when the controller's `layer` and `tileset`
  fields are read as one field, as the model does; Left out says what the
  literal reading gives instead.
- **Cache validation.** The etag is `sha1` of `tileset-x-y-z-type-mtime`. An
  `If-None-Match` equal to it is answered `304 Not Modified`. Every served tile
  carries `Pragma`, `Cache-Control: max-age=86400` and its `ETag`.
- **Images.** `imageTile` serves the stored tile as `image/<format>`. The format
  defaults to `png`, and `jpg` becomes `jpeg`. A missing tile gets the transparent
  PNG.
- **UTFGrids.** `getUTFgrid` builds the grid by string surgery: trim the stored
  grid and drop its last character, open `,"data":{`, append `"key":json,` for
  each `grid_data` row, cut trailing commas and close with `}}`. A missing grid is
  `{}`. `jsonTile` sends the result as is; `jsonpTile` sends `callback(json)`.
- **TileJSON.** `tileJson` builds an ordered PHP array in these steps:
  - It starts with `tilejson = "2.0.0"` and `scheme = "xyz"`.
  - It copies every metadata row under its trimmed name, in row order, so a
    later row overwrites an earlier one. `minzoom` and `maxzoom` go through
    `intval()`.
  - It splits `bounds` and `center` on commas.
  - It adds the `tiles` and `grids` URL templates.
- **Helpers.** `getMBTilesName` names a layer's container. `readparams` turns
  the metadata rows into a dictionary, and `readzooms` lists minzoom..maxzoom.

Responses are values (`MapTile.Response`). A 304 or a 404/500 abort ends the
request; anything else is a 200 with a content type, a body and the headers.
The environment (`MapTile.Env`) holds what the code reads from outside:
- the container files by name, each with its modification time, metadata, tiles,
  decompressed grids, grid data rows, and whether its queries fail;
- the `If-None-Match` header and the server URL;
- `sha1` and `json_encode`, as arbitrary functions.

The controller is a class whose methods update its fields in place. Each
handler method is proved equal to a specification function (`ServeSpec`,
`JsonTileSpec`, `ImageTileSpec`, `UtfGrid`, `TileJsonSpec`). The properties are
lemmas over those functions. The loops of `getUTFgrid`, `tileJson` and
`readparams` are methods proved against recursive functions over the rows.

Two places where the source does not do what it evidently means are listed
under Findings. Each has an as-written model and a corrected one. The
controller methods use the corrected ones.

## Model

| member | source | states |
|---|---|---|
| TileScheme.Pow2 | tileserver.py:276 | pow(2, z) is at least 1 |
| TileScheme.FlipRow | tileserver.py:275-277 | the XYZ row flip keeps a row inside [0, 2^z) exactly when it starts there |
| TileScheme.FlipRowInvolution | tileserver.py:275-277 | flipping twice gives the row back, so the flip is a bijection on the rows |
| TileScheme.TileRow | tileserver.py:275-277 | the row a request reads: a TMS row is used as given; an XYZ row y becomes the row r with r + y = 2^z - 1 |
| TileScheme.TileRowSchemesAgree | tileserver.py:275-277 | an XYZ request for the flipped row reads the same row as the TMS request |
| TileScheme.TmsTileset | tileserver.py:300 | serveTmsTile's tileset is the layer followed by exactly "-tms" |
| TileScheme.StripTmsSuffix | tileserver.py:367-369 | the strip removes exactly the last four characters |
| TileScheme.StripTmsTileset | tileserver.py:297-300 | stripping undoes the "-tms" suffix, whatever the layer is called |
| TileScheme.TmsTilesetStrip | tileserver.py:420-423 | conversely, re-suffixing a stripped tileset that ends in "-tms" restores it |
| TileScheme.MBTilesName | tileserver.py:49-50 | the container name is the layer followed by ".mbtiles" |
| TileScheme.MBTilesNameInjective | tileserver.py:49-50 | distinct layers are backed by distinct files |
| Decimal.IntVal | tileserver.py:475 | intval() of a string of digits is the number those digits spell |
| Decimal.ParseInt | tileserver.py:198-201 | int() of the empty string fails, and int() of a string of digits is the number those digits spell |
| Cache.EtagKey | tileserver.py:339 | the formatted key ends with a dash and the printed mtime, whatever the other fields are |
| TileScheme.ContainerIndependentOfScheme | tileserver.py:49-50 | both routes look up `<layer>.mbtiles` for the same layer |
| Dispatch.Dispatch | tileserver.py:279-294 | image handler iff the extension is png, jpeg or jpg up to case; JSON handler iff json or jsonp with a null callback; JSONP handler iff json or jsonp with a callback |
| Dispatch.DispatchIgnoresCase | tileserver.py:279 | two extensions that agree up to case reach the same handler |
| PhpStrings.ToLowerEqualsLiteral | tileserver.py:279 | strtolower(ext) equals a lower-case literal iff ext equals it up to case |
| PhpStrings.LTrim | tileserver.py:439 | the result is a suffix; what was dropped is all trimmable; the result does not start with a trimmable character |
| PhpStrings.RTrim | tileserver.py:450 | the result is a prefix; what was dropped is all trimmable; the result does not end with a trimmable character |
| PhpStrings.TrimUnchanged | tileserver.py:439 | a string with nothing trimmable at either end is its own trim |
| PhpStrings.SubstrPrefix | tileserver.py:439 | substr(s, 0, n) is a prefix of length n, or of length len(s) + n for a negative n (0 if that is negative) |
| PhpStrings.ToLower | tileserver.py:279 | strtolower keeps the length and lowers each ASCII capital |
| PhpStrings.Split | tileserver.py:479-484 | explode gives at least one piece, no piece holds the separator, and implode of the pieces is the input |
| PhpStrings.SplitJoin | tileserver.py:479-484 | explode undoes implode when no piece holds the separator |
| PhpStrings.SplitOfSeparatorFree | tileserver.py:480 | a string without commas explodes to itself alone |
| PhpStrings.SplitPrefixed | tileserver.py:480 | a comma-free head before a comma becomes the first piece |
| Grid.EntriesStep | tileserver.py:445-447 | one more row appends exactly one more `"key":json,` entry |
| Grid.AppendEntries | tileserver.py:445-447 | the loop appends the entries of all rows, in row order |
| Grid.AssembleGrid | tileserver.py:439-450 | the assembled grid is the splice of the stored grid with its rows |
| Grid.EntriesAreMembers | tileserver.py:445-450 | the appended entries are the comma-separated members plus one trailing comma |
| Grid.RTrimNoComma | tileserver.py:450 | rtrim(',') leaves a string that does not end in a comma alone |
| Grid.RTrimOneComma | tileserver.py:450 | rtrim(',') removes exactly the one trailing comma the loop leaves |
| Grid.MemberNoComma | tileserver.py:446 | a member ends in its JSON value, so it ends without a comma when that value does |
| Grid.MembersNoComma | tileserver.py:446 | the joined members end without a comma when the last JSON value does |
| Grid.HeadNoComma | tileserver.py:439-441 | the text before the loop ends with "{", not a comma |
| Grid.CloseEntries | tileserver.py:445-450 | cutting the trailing commas after the entries leaves exactly the members |
| Grid.Splice | tileserver.py:439-450 | the output starts with the trimmed stored grid minus its last character and `,"data":{`, and ends with `}}` |
| Grid.SpliceShape | tileserver.py:439-450 | output = trim(grid) without its last character, then `,"data":{`, the members in row order, then `}}` |
| Grid.SpliceAddsDataMember | tileserver.py:439-450 | when the trimmed grid is an object `body}`, the output is that object with a `data` member holding the rows |
| Grid.SpliceOneRow | tileserver.py:439-450 | with one data row, the data object holds exactly that row's member |
| Grid.SpliceExampleNoRows | tileserver.py:439-450 | the grid {"a":1} with no rows becomes {"a":1,"data":{}} |
| Grid.SpliceExampleOneRow | tileserver.py:439-450 | the grid {"a":1} with the row ("k1","5") becomes {"a":1,"data":{"k1":5}} |
| Grid.SpliceOfEmptyObject | tileserver.py:439-450 | the grid {} becomes `{,"data":{}}`: the splice assumes the object already has a member |
| Jsonp.Wrap | tileserver.py:325 | callback(json) is the callback, "(", the JSON text and ")", each at its place |
| Jsonp.Respond | tileserver.py:497-501 | the body is the JSON alone without a callback, and callback(json) with one |
| Jsonp.WrapInjective | tileserver.py:325 | when the callback has no "(", the wrapped text determines both the callback and the JSON |
| Cache.CheckCache | tileserver.py:342-347 | "not modified" iff If-None-Match is set and equals the etag |
| Cache.CachingHeaders | tileserver.py:349-361 | always Pragma: cache and Cache-Control: max-age=86400; an ETag header exactly when an etag is given, carrying it |
| Cache.EtagKeyInjective | tileserver.py:338-340 | for non-negative coordinates the formatted key determines all six fields, so the etag depends on them only |
| Cache.EtagKeyTracksMtime | tileserver.py:338-340 | a different container mtime gives a different key |
| Cache.MtimeStrInjective | tileserver.py:339 | different mtimes, or a missing file, print differently |
| Decimal.NatStrValue | tileserver.py:339 | the decimal spelling of n reads back as n |
| Decimal.NatStrInjective | tileserver.py:339 | different numbers print differently |
| Decimal.LeadingDigits | tileserver.py:475 | the longest run of digits at the front of the text |
| Decimal.IntValIntStr | tileserver.py:475 | intval() reads back a printed integer |
| Decimal.ParseIntIntStr | tileserver.py:199-201 | int() reads back a printed integer |
| ImageFormat.TileFormat | tileserver.py:392-397 | a missing format gives png; jpg becomes jpeg; any other value passes unchanged; the result is never jpg |
| ImageFormat.ContentType | tileserver.py:392-400 | the content type is image/ followed by the format: jpeg iff jpg or jpeg is stored, png iff png or nothing is stored |
| Container.FormatValue | tileserver.py:392-394 | the value of the first metadata row named "format", None iff there is none |
| Metadata.LastValue | tileserver.py:471-477 | the value of the last row with the name: a later row overwrites an earlier one |
| Metadata.HasNameSnoc | tileserver.py:193-194 | a name occurs in the rows iff it occurs before the last row or in it |
| TileMapService.ReadParams | tileserver.py:188-195 | the dictionary holds exactly the names of the rows, each with the value of its last row |
| TileMapService.ParamsOfLookup | tileserver.py:193-194 | assigning the rows in order keeps exactly their names, each with its last value |
| TileMapService.ZoomRange | tileserver.py:201 | range(lo, hi + 1) has hi - lo + 1 elements (none if hi < lo), the i-th being lo + i |
| TileMapService.ZoomRangeMembers | tileserver.py:201 | a zoom is listed iff it lies between the bounds |
| TileMapService.ZoomRangeSpan | tileserver.py:201 | the listed zooms are exactly those between the bounds, each one more than the last |
| TileMapService.ReadZooms | tileserver.py:197-201 | a list iff both bounds are present and integers; it lists exactly minzoom..maxzoom inclusive, ascending by one |
| TileJson.Keys | tileserver.py:466-495 | the keys of the PHP array, in array order |
| TileJson.Lookup | tileserver.py:479-483 | a key has a value iff it is among the array's keys |
| TileJson.Put | tileserver.py:477 | assigning an existing key keeps the key order; a new key goes last |
| TileJson.PutLookup | tileserver.py:477 | after $a[k] = v, k holds v and every other key holds what it held |
| TileJson.PutDistinct | tileserver.py:477 | assignment never creates a second copy of a key |
| TileJson.Coerce | tileserver.py:474-476 | minzoom and maxzoom are stored as intval() of the text, every other value as the text |
| TileJson.Trimmed | tileserver.py:472 | each row keeps its value under its trimmed name |
| TileJson.SplitFieldLookup | tileserver.py:479-484 | the comma split rewrites only its own key, and only when that key holds text |
| TileJson.ReadMetadata | tileserver.py:466-478 | the loop's array is the initial array with every row assigned in order |
| TileJson.InitialByAssignment | tileserver.py:466-468 | the two fixed assignments produce the initial array |
| TileJson.BuildTileJson | tileserver.py:466-495 | the array handed to json_encode is the specification document |
| TileJson.AbsorbLookup | tileserver.py:471-478 | after the loop, a named key holds the coerced value of its last row; an unnamed key keeps its initial value |
| TileJson.Absorb | tileserver.py:466-478 | after the loop, tilejson and scheme are still the first two keys |
| TileJson.AbsorbKeys | tileserver.py:466-478 | after the loop, no key is repeated |
| TileJson.FinishKeys | tileserver.py:479-495 | the splits and URL templates keep the two front keys in place and repeat no key |
| TileJson.FinishLookupOther | tileserver.py:479-495 | finishing leaves every key other than bounds, center, tiles and grids alone |
| TileJson.FinishLookupSplit | tileserver.py:479-484 | a textual bounds or center becomes its comma-separated pieces |
| TileJson.FinishLookupAbsent | tileserver.py:479-484 | finishing adds no bounds or center that was absent |
| TileJson.TileJsonKeys | tileserver.py:466-495 | the document starts with tilejson and scheme and repeats no key |
| TileJson.TileJsonDefaults | tileserver.py:467-468 | tilejson is "2.0.0" and scheme is "xyz" unless a metadata row names them |
| TileJson.TileJsonMetadata | tileserver.py:471-478 | every other metadata name holds its last row's value, under its trimmed name |
| TileJson.TileJsonZoom | tileserver.py:474-476 | minzoom and maxzoom, when present, are intval() of their last rows' values |
| TileJson.TileJsonSplits | tileserver.py:479-484 | bounds and center are present iff a row names them, as the comma-separated pieces of the last such row |
| TileJson.TileJsonDoc | tileserver.py:490-495 | tiles and grids are always the two URL templates of the layer |
| TileJson.InitialKeys | tileserver.py:466-468 | the initial array holds tilejson and scheme and nothing else |
| TileJson.FinishKeySet | tileserver.py:479-495 | finishing adds tiles and grids and no other key |
| TileJson.TileJsonKeySet | tileserver.py:466-495 | the document's keys are exactly tilejson, scheme, tiles, grids and the trimmed metadata names |
| UrlEncoding.EncodeByte | tileserver.py:490-495 | urldecode reads one encoded byte back |
| UrlEncoding.UrlEncode | tileserver.py:490-495 | urlencode writes only letters, digits, "-", "_", ".", "+" and "%" |
| UrlEncoding.UrlDecodeEncode | tileserver.py:490-495 | urldecode undoes urlencode, so the layer can be read back from a template URL |
| UrlEncoding.UrlEncodeUnreserved | tileserver.py:490-495 | a layer name made of letters, digits, "-", "_" and "." appears in the URL unchanged |
| MapTile.StripIfTmsRoute | tileserver.py:367-369 | on either route, the tileset the handlers use after the strip is the layer of the URL, and no other field changes |
| MapTile.EtagKeyAsWritten | tileserver.py:338-340 | as written, the key carries the mtime of the file named by the unstripped tileset, and an empty mtime when that file is missing |
| MapTile.TileEtagKey | tileserver.py:338-340 | the corrected key is the as-written key on the XYZ route; on the TMS route it keeps the "-tms" tileset but carries the mtime of the stripped layer's container |
| MapTile.TileEtag | tileserver.py:338-340 | the etag is sha1 of that key: of the as-written key on the XYZ route, of the key with the stripped layer's mtime on the TMS route |
| MapTile.EtagKeyAsWrittenIgnoresMtime | tileserver.py:338-340 | as written, a TMS etag key has an empty mtime when no `<layer>-tms.mbtiles` exists |
| MapTile.TileEtagKeyTracksMtime | tileserver.py:338-340 | with the corrected key, replacing a layer's container changes the etag key on both routes |
| MapTile.UtfGridAsWritten | tileserver.py:415-423 | as written, a grid is sent iff the file named by the unstripped tileset exists and its queries succeed |
| MapTile.UtfGrid | tileserver.py:415-460 | the fields end stripped; a grid is sent iff the layer's container exists and its queries succeed; otherwise a 404 or a 500 |
| MapTile.JsonTileSpec | tileserver.py:303-336 | 304 iff If-None-Match equals the json or jsonp etag; never silent; a sent grid has the JSON content type and the caching headers with that etag |
| MapTile.ImageTileSpec | tileserver.py:363-413 | 304 iff If-None-Match equals the img etag; never silent; a sent image carries the caching headers with that etag |
| MapTile.ImageFromContainer | tileserver.py:371-412 | past the cache check imageTile always answers, never with a 304, and a sent image carries the given etag |
| MapTile.ServeSpec | tileserver.py:272-295 | nothing is sent iff no handler matches; the fields end as set() and the flip leave them, stripped or not |
| MapTile.Route | tileserver.py:272-301 | nothing is sent iff no handler matches; the tileset field ends as the URL's layer or as the routed tileset |
| MapTile.TileJsonSpec | tileserver.py:462-514 | 404 iff the container is missing; a document iff the container exists and its queries succeed, as application/json with caching headers and no etag |
| MapTile.UtfGridAsWrittenMissesTmsContainer | tileserver.py:415-430 | as written, a TMS grid request for an existing layer is a 404 naming `<layer>-tms`; the corrected getUTFgrid is not |
| MapTile.MapTileController.constructor | tileserver.py:259-261 | a fresh controller is not TMS |
| MapTile.MapTileController.Set | tileserver.py:263-270 | set() writes the six request fields and leaves is_tms as it was |
| MapTile.MapTileController.ServeTile | tileserver.py:272-295 | the response and the new fields are those of the specification: set, flip the row in place unless TMS, dispatch by extension |
| MapTile.MapTileController.ServeTmsTile | tileserver.py:297-301 | a TMS request is the TMS route of the specification: is_tms set, layer suffixed with "-tms" |
| MapTile.MapTileController.JsonTile | tileserver.py:303-318 | etag, cache check, grid, then the grid as JSON with the caching headers |
| MapTile.MapTileController.JsonpTile | tileserver.py:320-336 | as JsonTile, with the body wrapped in the callback |
| MapTile.MapTileController.ImageTile | tileserver.py:363-413 | etag, cache check, strip, then the stored tile, the transparent PNG, a 404 or a 500 |
| MapTile.MapTileController.GetUTFgrid | tileserver.py:415-460 | strip, look up, then the spliced grid, "{}", a 404 or a 500 |
| MapTile.MapTileController.TileJson | tileserver.py:462-514 | the TileJSON response of the layer, as JSON or JSONP, with caching headers and no etag |
| MapTileProperties.GridSameTile | tileserver.py:415-454 | the grid depends only on the stripped tileset and the coordinates |
| MapTileProperties.JsonSameTile | tileserver.py:303-336 | when neither request's etag matches If-None-Match, JSON and JSONP content depend only on the tile and the callback |
| MapTileProperties.ImageSameTile | tileserver.py:363-404 | when neither request's etag matches If-None-Match, image content depends only on the tile |
| MapTileProperties.SchemesServeSameTile | tileserver.py:272-301 | a TMS request and the XYZ request for the flipped row send the same content unless one of them is answered 304 |
| MapTileProperties.NotModifiedExactlyOnMatch | tileserver.py:342-347 | the answer is 304 iff a handler is reached and If-None-Match equals that handler's etag |
| MapTileProperties.UnknownExtensionSendsNothing | tileserver.py:279-294 | any other extension sends nothing |
| MapTileProperties.MissingContainerNotFound | tileserver.py:380-386 | a layer without a container is a 404 naming the layer, on either route, unless If-None-Match equals the request's etag |
| MapTileProperties.GridResponse | tileserver.py:427-453 | unless If-None-Match equals its etag, a grid request gets the spliced grid, or "{}" when the tile has none, as JSON or exactly callback(json) |
| MapTileProperties.ImageResponse | tileserver.py:374-404 | unless If-None-Match equals its etag, an image request gets the stored tile under its format's type, or the transparent PNG when the tile is missing |
| MapTileProperties.TileResponsesCarryEtag | tileserver.py:349-361 | every tile sent carries the caching headers and the etag of its handler |
| MapTileProperties.QueryFailureIsServerError | tileserver.py:409-412 | unless If-None-Match equals the request's etag, a failing query is a 500 carrying the database's message, for tiles and grids alike |
| MapTileProperties.TileJsonHasNoEtag | tileserver.py:506 | the TileJSON response carries no ETag header |

## Left out

- HTTP output is a value, not output. The model does not emit `header()` calls, `echo`, `print` or `exit()`, nor toggle `ini_set('zlib.output_compression')`. `Content-Length` is left out: it is the body's length.
- The `Expires` header is left out: it needs the clock (`time()`, `gmdate`). The model keeps `Pragma` and `Cache-Control`.
- Cache.CachingHeaders: emits `Cache-Control: max-age=86400`, as the code writes it.
- `sha1` and `json_encode` are arbitrary functions in `MapTile.Env`. The model proves nothing about what they compute.
- `gzuncompress` is left out because it is a foreign DEFLATE call. The model stores grids already decompressed.
- The GD image calls that build the transparent PNG are left out. The model returns the `TransparentPng` body.
- SQLite is not modelled: opening and closing the database, cursors, `fetchColumn`/`fetch`. Each container is a value holding its tables. A container whose queries fail (`PDOException`) is marked by a `failure` message.
- `filemtime` is the container's `mtime`. A missing file prints as the empty string, as PHP prints `false`.
- Server-URL discovery from `$_SERVER` (lines 487-488) is not modelled: the URL is the parameter `serverUrl`.
- `floatval` on the `bounds` and `center` pieces is not modelled, because it is floating point. `TileJson.JFloats` keeps the pieces as text.
- `pow(2, z)` is an exact integer. PHP gives a float when z is large; the model does not follow that.
- PHP's `==` in `checkCache` is loose. `Cache.CheckCache` models exact string equality. Loose equality would also match numeric strings such as "1e3" and "1000"; etags are hex digests, where the two rarely differ.
- Decimal.IntVal: models `intval()` as leading blanks, an optional sign and decimal digits. It leaves out PHP 8's numeric strings with an exponent or a fraction ("1e3", "1.5").
- Decimal.IntVal: does not clamp to `PHP_INT_MAX` and `PHP_INT_MIN`. PHP saturates a value outside the 64-bit range; the model's integers are unbounded.
- Decimal.ParseInt: models Python's `int()` on decimal text. It leaves out underscores between digits and non-ASCII digits.
- Decimal.ParseInt: strips only the ASCII blanks around the number. Python's `int()` also strips the separators `\x1c` to `\x1f` and Unicode whitespace.
- Cache.EtagKey: takes the coordinates as integers and prints them in their shortest form. The router hands them to `serveTile` as URL text (lines 215 and 650), and `sprintf` prints that text as it is (line 339). So "05" and "5" give different etags in the source and the same etag in the model. On the XYZ route the flip makes y a number again; on the TMS route it stays text.
- TileMapService.ReadZooms: the Python code passes the raw metadata strings to `range()`, which would raise on strings. The model reads the bounds as `int()` would and returns None where that fails or a bound is missing.
- The PHP `set()` writes a `layer` field (line 264), and `getMBTilesName` builds the file name from the layer (line 50). The handlers read and rewrite `tileset` instead: `etag()` at line 339 and the strips at lines 368 and 421. Nothing assigns `tileset`. Read literally, this has three consequences:
  - the strips never change which file is opened;
  - `imageTile` opens `<layer>-tms.mbtiles` on the TMS route too;
  - the etag's first field is never set.

  The model merges the two into one field, `tileset`: the layer as handed to `serveTile`, carrying "-tms" on the TMS route. So in the model the strips choose the container. Both Findings rows, and the TMS-route description above, are stated under this merged reading.
- `imageTile` compares the stored format with `jpg` case-sensitively. The model does the same: "JPG" passes through as `image/JPG`.
- Grid keys and JSON values are spliced as they are, without escaping, as the code does. `Grid.SpliceOfEmptyObject` shows that an empty stored object gives invalid JSON.
- Strings are PHP byte strings, so `urlencode` is modelled on characters below 256 (`UrlEncoding.IsByteString`). `MapTile.TileJsonSpec` and `MapTile.MapTileController.TileJson` require the layer to be such a string.
- The route table, the bottle app and the commented `Router`/`Route` classes are not modelled. The `ServerInfoController`/TMS XML templating is not modelled either. `MapTile.Route` stands for the two tile routes. It assumes the layer reaches `serveTmsTile`; as written, the router binds arguments by parameter name (lines 649-650), the TMS route names its parameter `:layer` (line 213) while `serveTmsTile`'s first parameter is `$tileset` (line 297), so `serveTmsTile` would receive null.

## Findings

| source | as written | input that shows it | evidently intended | confidence | as-written member | corrected member |
|---|---|---|---|---|---|---|
| tileserver.py:415-423 | `getUTFgrid` calls `openDB()` before it cuts "-tms" off the tileset, so the TMS route opens `<layer>-tms.mbtiles` | a TMS `.json` request for layer `world` when only `world.mbtiles` exists: 404 "Incorrect tileset name: world-tms" | strip first, then open `<layer>.mbtiles`, as `imageTile` does (lines 367-372) when `layer` and `tileset` are read as one field (see Left out) | not executed | MapTile.UtfGridAsWrittenMissesTmsContainer | MapTile.UtfGrid |
| tileserver.py:338-340 | `etag()` runs before the strip, so on the TMS route `filemtime` is taken of `<layer>-tms.mbtiles`; that file is missing, so the mtime prints as "" | a TMS request for `world` before and after `world.mbtiles` is replaced: the same etag, so a client keeps a stale tile | the etag carries the mtime of the container that is served | not executed | MapTile.EtagKeyAsWrittenIgnoresMtime | MapTile.TileEtagKeyTracksMtime |
