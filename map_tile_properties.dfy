/**
  What a tile request gets back, stated over the handler functions of
  MapTileController for every environment and request.
 */
module MapTileProperties {
  import opened Wrappers
  import opened PhpStrings
  import opened TileScheme
  import opened Dispatch
  import opened Cache
  import opened ImageFormat
  import opened Grid
  import opened Jsonp
  import opened Container
  import opened MapTile
  import UrlEncoding

  /** Two responses send the same thing, apart from their headers. */
  predicate SameContent(a: Response, b: Response)
  {
    match a
    case Ok(ct, body, _) => b.Ok? && b.contentType == ct && b.body == body
    case _ => a == b
  }

  /** Past the cache check, the handlers read only the stripped tileset and the coordinates. */
  predicate SameTile(t: Fields, f: Fields)
  {
    var st := StripIfTms(t);
    var sf := StripIfTms(f);
    st.tileset == sf.tileset && st.x == sf.x && st.y == sf.y && st.z == sf.z && t.callback == f.callback
  }

  /** The etag a routed request is checked against: that of the handler its extension picks. */
  function RequestEtag(env: Env, isTms: bool, layer: string, x: int, y: int, z: nat, ext: string, callback: Option<string>): string
  {
    var f := RequestFields(isTms, RoutedTileset(isTms, layer), x, y, z, ext, callback);
    TileEtag(env, f, KindOf(Dispatch.Dispatch(ext, callback)))
  }

  lemma GridSameTile(env: Env, t: Fields, f: Fields)
    requires SameTile(t, f)
    ensures UtfGrid(env, t).result == UtfGrid(env, f).result
  {
  }

  lemma JsonSameTile(env: Env, t: Fields, f: Fields, wrap: bool)
    requires SameTile(t, f)
    requires !CheckCache(TileEtag(env, t, if wrap then Jsonp else Json), env.ifNoneMatch)
    requires !CheckCache(TileEtag(env, f, if wrap then Jsonp else Json), env.ifNoneMatch)
    ensures SameContent(JsonTileSpec(env, t, wrap).response, JsonTileSpec(env, f, wrap).response)
  {
    GridSameTile(env, t, f);
  }

  lemma ImageSameTile(env: Env, t: Fields, f: Fields)
    requires SameTile(t, f)
    requires !CheckCache(TileEtag(env, t, Img), env.ifNoneMatch) && !CheckCache(TileEtag(env, f, Img), env.ifNoneMatch)
    ensures SameContent(ImageTileSpec(env, t).response, ImageTileSpec(env, f).response)
  {
    ImageFromContainerSameTile(env, StripIfTms(t), StripIfTms(f), TileEtag(env, t, Img), TileEtag(env, f, Img));
  }

  lemma ImageFromContainerSameTile(env: Env, st: Fields, sf: Fields, e1: string, e2: string)
    requires st.tileset == sf.tileset && st.x == sf.x && st.y == sf.y && st.z == sf.z
    ensures SameContent(ImageFromContainer(env, st, e1), ImageFromContainer(env, sf, e2))
  {
  }

  /** A TMS request and the XYZ request for the flipped row open the same
      container, read the same row and send the same content. (Their etags
      differ, as the TMS tileset carries "-tms"; either may be answered 304.) */
  lemma SchemesServeSameTile(env: Env, layer: string, x: int, y: int, z: nat, ext: string, callback: Option<string>)
    requires Route(env, true, layer, x, y, z, ext, callback).response != NotModified
    requires Route(env, false, layer, x, FlipRow(z, y), z, ext, callback).response != NotModified
    ensures SameContent(Route(env, true, layer, x, y, z, ext, callback).response,
                        Route(env, false, layer, x, FlipRow(z, y), z, ext, callback).response)
  {
    StripTmsTileset(layer);
    TileRowSchemesAgree(z, y);
    var t := RequestFields(true, TmsTileset(layer), x, y, z, ext, callback);
    var f := RequestFields(false, layer, x, FlipRow(z, y), z, ext, callback);
    assert SameTile(t, f);
    match Dispatch.Dispatch(ext, callback)
    case JsonTile => JsonSameTile(env, t, f, false);
    case JsonpTile => JsonSameTile(env, t, f, true);
    case ImageTile => ImageSameTile(env, t, f);
    case NoHandler =>
  }

  /** The answer is "304 Not Modified" exactly when a handler is reached and
      If-None-Match equals that handler's etag. */
  lemma NotModifiedExactlyOnMatch(env: Env, isTms: bool, layer: string, x: int, y: int, z: nat, ext: string, callback: Option<string>)
    ensures var h := Dispatch.Dispatch(ext, callback);
            var f := RequestFields(isTms, RoutedTileset(isTms, layer), x, y, z, ext, callback);
            Route(env, isTms, layer, x, y, z, ext, callback).response == NotModified <==>
              h != NoHandler && env.ifNoneMatch == Some(TileEtag(env, f, KindOf(h)))
  {
  }

  /** An extension other than json, jsonp, png, jpeg and jpg (in any case) sends nothing. */
  lemma UnknownExtensionSendsNothing(env: Env, isTms: bool, layer: string, x: int, y: int, z: nat, ext: string, callback: Option<string>)
    requires !EqualsIgnoreCase(ext, "json") && !EqualsIgnoreCase(ext, "jsonp")
    requires !EqualsIgnoreCase(ext, "png") && !EqualsIgnoreCase(ext, "jpeg") && !EqualsIgnoreCase(ext, "jpg")
    ensures Route(env, isTms, layer, x, y, z, ext, callback).response == Empty
  {
  }

  /** A layer without a container gets a 404 naming the layer, on either route. */
  lemma MissingContainerNotFound(env: Env, isTms: bool, layer: string, x: int, y: int, z: nat, ext: string, callback: Option<string>)
    requires Dispatch.Dispatch(ext, callback) != NoHandler
    requires env.ifNoneMatch != Some(RequestEtag(env, isTms, layer, x, y, z, ext, callback))
    requires MBTilesName(layer) !in env.files
    ensures Route(env, isTms, layer, x, y, z, ext, callback).response == NotFound("Incorrect tileset name: " + layer)
  {
    StripTmsTileset(layer);
  }

  /** A grid request is answered with the tile's spliced grid, or "{}" when the
      tile has none; with a callback the body is exactly callback(json). */
  lemma GridResponse(env: Env, isTms: bool, layer: string, x: int, y: int, z: nat, ext: string, callback: Option<string>)
    requires EqualsIgnoreCase(ext, "json") || EqualsIgnoreCase(ext, "jsonp")
    requires env.ifNoneMatch != Some(RequestEtag(env, isTms, layer, x, y, z, ext, callback))
    requires MBTilesName(layer) in env.files && env.files[MBTilesName(layer)].failure.None?
    ensures var db := env.files[MBTilesName(layer)];
            var key := TileKey(z, x, TileRow(z, y, isTms));
            var json := if key in db.grids then Splice(db.grids[key], GridRowsAt(db, key)) else "{}";
            var r := Route(env, isTms, layer, x, y, z, ext, callback).response;
            r.Ok? && r.contentType == "application/json; charset=utf-8" && r.body == Text(Respond(callback, json))
  {
    StripTmsTileset(layer);
  }

  /** An image request is answered with the stored tile under its format's media
      type, or with the transparent PNG when the tile is missing. */
  lemma ImageResponse(env: Env, isTms: bool, layer: string, x: int, y: int, z: nat, ext: string, callback: Option<string>)
    requires EqualsIgnoreCase(ext, "png") || EqualsIgnoreCase(ext, "jpeg") || EqualsIgnoreCase(ext, "jpg")
    requires env.ifNoneMatch != Some(RequestEtag(env, isTms, layer, x, y, z, ext, callback))
    requires MBTilesName(layer) in env.files && env.files[MBTilesName(layer)].failure.None?
    ensures var db := env.files[MBTilesName(layer)];
            var key := TileKey(z, x, TileRow(z, y, isTms));
            var r := Route(env, isTms, layer, x, y, z, ext, callback).response;
            && r.Ok?
            && (key in db.tiles ==> r.contentType == ContentType(FormatValue(db.metadata)) && r.body == Blob(db.tiles[key]))
            && (key !in db.tiles ==> r.contentType == "image/png" && r.body == TransparentPng)
  {
    StripTmsTileset(layer);
  }

  /** Every tile that is sent carries the caching headers and its etag. */
  lemma TileResponsesCarryEtag(env: Env, isTms: bool, layer: string, x: int, y: int, z: nat, ext: string, callback: Option<string>)
    ensures var h := Dispatch.Dispatch(ext, callback);
            var f := RequestFields(isTms, RoutedTileset(isTms, layer), x, y, z, ext, callback);
            var r := Route(env, isTms, layer, x, y, z, ext, callback).response;
            r.Ok? ==> r.headers == CachingHeaders(Some(TileEtag(env, f, KindOf(h))))
  {
  }

  /** A query failure is a 500 carrying the database's message, for tiles and grids alike. */
  lemma QueryFailureIsServerError(env: Env, isTms: bool, layer: string, x: int, y: int, z: nat, ext: string, callback: Option<string>)
    requires Dispatch.Dispatch(ext, callback) != NoHandler
    requires env.ifNoneMatch != Some(RequestEtag(env, isTms, layer, x, y, z, ext, callback))
    requires MBTilesName(layer) in env.files && env.files[MBTilesName(layer)].failure.Some?
    ensures Route(env, isTms, layer, x, y, z, ext, callback).response
         == ServerError("Error querying the database: " + env.files[MBTilesName(layer)].failure.value)
  {
    StripTmsTileset(layer);
  }

  /** The TileJSON response carries no etag. */
  lemma TileJsonHasNoEtag(env: Env, layer: string, callback: Option<string>)
    requires UrlEncoding.IsByteString(layer)
    ensures var r := TileJsonSpec(env, layer, callback);
            r.Ok? ==> forall e :: ("ETag", e) !in r.headers
  {
  }
}
