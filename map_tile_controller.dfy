/**
  MapTileController: serves one tile request. serveTile records the request in
  the controller's fields, flips XYZ rows to TMS order in place and picks a
  handler by extension; serveTmsTile marks the controller as TMS and suffixes
  the layer with "-tms". imageTile strips it before opening the container;
  etag() and getUTFgrid look the file up first (EtagKeyAsWritten,
  UtfGridAsWritten), and the functions below that the controller follows use
  the corrected order. Responses are values: the 304 and the 404/500 aborts end the
  request, everything else is a 200 with a content type, a body and the
  caching headers.

  The environment stands for what the code reads from outside: the container
  files by name, the If-None-Match request header, the server URL, and the
  sha1 and json_encode built-ins.
 */
module MapTile {
  import opened Wrappers
  import opened PhpStrings
  import opened TileScheme
  import opened Dispatch
  import opened Cache
  import opened ImageFormat
  import opened Grid
  import opened Jsonp
  import opened TileJson
  import opened Container
  import UrlEncoding

  datatype Env = Env(
    files: map<string, MBTiles>,
    ifNoneMatch: Option<string>,
    serverUrl: string,
    sha1: string -> string,
    jsonEncode: PhpArray -> string)

  datatype Body =
    | Text(text: string)
    | Blob(bytes: seq<bv8>)
    | TransparentPng  // the 256x256 fully transparent PNG built with GD

  datatype Response =
    | Empty                          // no handler matched: nothing is sent
    | NotModified                    // 304, the client's copy is current
    | NotFound(message: string)      // abort(404, ...)
    | ServerError(message: string)   // error(500, ...)
    | Ok(contentType: string, body: Body, headers: seq<Header>)

  /** The controller's fields, as one value. */
  datatype Fields = Fields(tileset: string, x: int, y: int, z: nat, ext: string, callback: Option<string>, isTms: bool)

  /** What a handler sends, and the fields it leaves behind. */
  datatype Outcome = Outcome(response: Response, fields: Fields)

  /** getUTFgrid either returns the grid text or ends the request. */
  datatype GridResult = GridText(text: string) | GridAbort(response: Response)
  datatype GridOutcome = GridOutcome(result: GridResult, fields: Fields)

  const JsonContentType: string := "application/json; charset=utf-8"

  /** filemtime(<name>.mbtiles): None (printed as "") when there is no such file. */
  function ContainerMtime(env: Env, layer: string): Option<nat>
  {
    if MBTilesName(layer) in env.files then Some(env.files[MBTilesName(layer)].mtime) else None
  }

  function MissingContainer(layer: string): Response
  {
    NotFound("Incorrect tileset name: " + layer)
  }

  function QueryError(db: MBTiles): Response
    requires db.failure.Some?
  {
    ServerError("Error querying the database: " + db.failure.value)
  }

  /** The tileset with "-tms" cut off when the controller serves TMS. */
  function StripIfTms(f: Fields): (g: Fields)
    ensures g == f.(tileset := g.tileset)
    ensures g.tileset == LookupLayer(f.tileset, f.isTms)
  {
    if f.isTms then f.(tileset := StripTmsSuffix(f.tileset)) else f
  }

  // ---------------------------------------------------------------------------
  // The etag.
  // ---------------------------------------------------------------------------

  /** The etag key as written: filemtime is taken of the container named by the
      tileset field, which on the TMS route still carries "-tms". */
  function EtagKeyAsWritten(env: Env, f: Fields, kind: EtagKind): (key: string)
    ensures MBTilesName(f.tileset) !in env.files ==> key == EtagKey(f.tileset, f.x, f.y, f.z, kind, None)
    ensures MBTilesName(f.tileset) in env.files ==>
      key == EtagKey(f.tileset, f.x, f.y, f.z, kind, Some(env.files[MBTilesName(f.tileset)].mtime))
  {
    EtagKey(f.tileset, f.x, f.y, f.z, kind, ContainerMtime(env, f.tileset))
  }

  /** On the TMS route, with no "<layer>-tms.mbtiles" file, the key as written has an
      empty mtime, so it stays the same when the layer's container is replaced. */
  lemma EtagKeyAsWrittenIgnoresMtime(env: Env, layer: string, x: int, y: int, z: nat, kind: EtagKind)
    requires MBTilesName(TmsTileset(layer)) !in env.files
    ensures EtagKeyAsWritten(env, Fields(TmsTileset(layer), x, y, z, "", None, true), kind)
         == EtagKey(TmsTileset(layer), x, y, z, kind, None)
  {
  }

  /** The etag key with the mtime of the container the request is served from. */
  function TileEtagKey(env: Env, f: Fields, kind: EtagKind): (key: string)
    ensures !f.isTms ==> key == EtagKeyAsWritten(env, f, kind)
    ensures f.isTms ==> key == EtagKey(f.tileset, f.x, f.y, f.z, kind, ContainerMtime(env, StripTmsSuffix(f.tileset)))
  {
    EtagKey(f.tileset, f.x, f.y, f.z, kind, ContainerMtime(env, LookupLayer(f.tileset, f.isTms)))
  }

  /** etag($type). */
  function TileEtag(env: Env, f: Fields, kind: EtagKind): (etag: string)
    ensures !f.isTms ==> etag == env.sha1(EtagKeyAsWritten(env, f, kind))
    ensures f.isTms ==> etag == env.sha1(EtagKey(f.tileset, f.x, f.y, f.z, kind, ContainerMtime(env, StripTmsSuffix(f.tileset))))
  {
    env.sha1(TileEtagKey(env, f, kind))
  }

  /** On both routes the key carries the mtime of `<layer>.mbtiles`, so replacing
      the container changes the key of every request for the layer. */
  lemma TileEtagKeyTracksMtime(env1: Env, env2: Env, isTms: bool, layer: string, x: nat, y: nat, z: nat, kind: EtagKind)
    requires MBTilesName(layer) in env1.files && MBTilesName(layer) in env2.files
    requires env1.files[MBTilesName(layer)].mtime != env2.files[MBTilesName(layer)].mtime
    ensures var tileset := if isTms then TmsTileset(layer) else layer;
            var f := Fields(tileset, x, y, z, "", None, isTms);
            TileEtagKey(env1, f, kind) != TileEtagKey(env2, f, kind)
  {
    var tileset := if isTms then TmsTileset(layer) else layer;
    StripTmsTileset(layer);
    assert LookupLayer(tileset, isTms) == layer;
    EtagKeyTracksMtime(tileset, x, y, z, kind,
      Some(env1.files[MBTilesName(layer)].mtime), Some(env2.files[MBTilesName(layer)].mtime));
  }

  // ---------------------------------------------------------------------------
  // The handlers, as functions of the environment and the fields.
  // ---------------------------------------------------------------------------

  /** getUTFgrid as written: the container is opened before "-tms" is cut off. */
  function UtfGridAsWritten(env: Env, f: Fields): (r: GridOutcome)
    ensures r.result.GridText? <==>
      MBTilesName(f.tileset) in env.files && env.files[MBTilesName(f.tileset)].failure.None?
    ensures MBTilesName(f.tileset) in env.files ==> r.fields == StripIfTms(f)
  {
    var name := MBTilesName(f.tileset);
    if name !in env.files then GridOutcome(GridAbort(MissingContainer(f.tileset)), f)
    else
      var g := StripIfTms(f);
      var db := env.files[name];
      var key := TileKey(g.z, g.x, g.y);
      if db.failure.Some? then GridOutcome(GridAbort(QueryError(db)), g)
      else if key !in db.grids then GridOutcome(GridText("{}"), g)
      else GridOutcome(GridText(Splice(db.grids[key], GridRowsAt(db, key))), g)
  }

  /** As written, a TMS grid request for a layer whose container exists ends in a
      404 naming "<layer>-tms", unless a file "<layer>-tms.mbtiles" happens to exist. */
  lemma UtfGridAsWrittenMissesTmsContainer(env: Env, layer: string, x: int, y: int, z: nat, ext: string, callback: Option<string>)
    requires MBTilesName(layer) in env.files && MBTilesName(TmsTileset(layer)) !in env.files
    ensures UtfGridAsWritten(env, Fields(TmsTileset(layer), x, y, z, ext, callback, true)).result
         == GridAbort(NotFound("Incorrect tileset name: " + layer + "-tms"))
    ensures UtfGrid(env, Fields(TmsTileset(layer), x, y, z, ext, callback, true)).result
         != GridAbort(NotFound("Incorrect tileset name: " + layer + "-tms"))
  {
    StripTmsTileset(layer);
    assert "Incorrect tileset name: " + TmsTileset(layer) == "Incorrect tileset name: " + layer + "-tms";
  }

  /** getUTFgrid: cut "-tms" off, open the container, then the grid of the tile
      spliced with its data rows, or "{}" when the tile has no grid. */
  function UtfGrid(env: Env, f: Fields): (r: GridOutcome)
    ensures r.fields == StripIfTms(f)
    ensures r.result.GridText? <==>
      MBTilesName(LookupLayer(f.tileset, f.isTms)) in env.files &&
      env.files[MBTilesName(LookupLayer(f.tileset, f.isTms))].failure.None?
    ensures r.result.GridAbort? ==> r.result.response.NotFound? || r.result.response.ServerError?
  {
    var g := StripIfTms(f);
    var name := MBTilesName(g.tileset);
    if name !in env.files then GridOutcome(GridAbort(MissingContainer(g.tileset)), g)
    else
      var db := env.files[name];
      var key := TileKey(g.z, g.x, g.y);
      if db.failure.Some? then GridOutcome(GridAbort(QueryError(db)), g)
      else if key !in db.grids then GridOutcome(GridText("{}"), g)
      else GridOutcome(GridText(Splice(db.grids[key], GridRowsAt(db, key))), g)
  }

  /** jsonTile (wrap false) and jsonpTile (wrap true). */
  function JsonTileSpec(env: Env, f: Fields, wrap: bool): (r: Outcome)
    ensures r.response == NotModified <==> CheckCache(TileEtag(env, f, if wrap then Jsonp else Json), env.ifNoneMatch)
    ensures r.response != Empty
    ensures r.response.Ok? ==> (r.response.contentType == JsonContentType &&
      r.response.headers == CachingHeaders(Some(TileEtag(env, f, if wrap then Jsonp else Json))))
    ensures r.fields == f || r.fields == StripIfTms(f)
  {
    var etag := TileEtag(env, f, if wrap then Jsonp else Json);
    if CheckCache(etag, env.ifNoneMatch) then Outcome(NotModified, f)
    else
      var g := UtfGrid(env, f);
      match g.result
      case GridAbort(r) => Outcome(r, g.fields)
      case GridText(json) =>
        var body := if wrap then Wrap(CallbackText(f.callback), json) else json;
        Outcome(Ok(JsonContentType, Text(body), CachingHeaders(Some(etag))), g.fields)
  }

  /** imageTile: the stored tile with its format's media type, or the transparent PNG. */
  function ImageTileSpec(env: Env, f: Fields): (r: Outcome)
    ensures r.response == NotModified <==> CheckCache(TileEtag(env, f, Img), env.ifNoneMatch)
    ensures r.response != Empty
    ensures r.response.Ok? ==> r.response.headers == CachingHeaders(Some(TileEtag(env, f, Img)))
    ensures r.fields == f || r.fields == StripIfTms(f)
  {
    var etag := TileEtag(env, f, Img);
    if CheckCache(etag, env.ifNoneMatch) then Outcome(NotModified, f)
    else
      var g := StripIfTms(f);
      Outcome(ImageFromContainer(env, g, etag), g)
  }

  /** The rest of imageTile, past the cache check: open the container named by the
      stripped tileset and send the tile at (z, x, y) with the given etag. */
  function ImageFromContainer(env: Env, g: Fields, etag: string): (r: Response)
    ensures r != Empty && r != NotModified
    ensures r.Ok? ==> r.headers == CachingHeaders(Some(etag))
  {
    var name := MBTilesName(g.tileset);
    if name !in env.files then MissingContainer(g.tileset)
    else
      var db := env.files[name];
      var key := TileKey(g.z, g.x, g.y);
      if db.failure.Some? then QueryError(db)
      else if key !in db.tiles then Ok("image/png", TransparentPng, CachingHeaders(Some(etag)))
      else Ok(ContentType(FormatValue(db.metadata)), Blob(db.tiles[key]), CachingHeaders(Some(etag)))
  }

  /** The fields after set() and the row flip. */
  function RequestFields(isTms: bool, tileset: string, x: int, y: int, z: nat, ext: string, callback: Option<string>): Fields
  {
    Fields(tileset, x, TileRow(z, y, isTms), z, ext, callback, isTms)
  }

  /** serveTile with the controller's is_tms flag. */
  function ServeSpec(env: Env, isTms: bool, tileset: string, x: int, y: int, z: nat, ext: string, callback: Option<string>): (r: Outcome)
    ensures r.response == Empty <==> Dispatch.Dispatch(ext, callback) == NoHandler
    ensures var f := RequestFields(isTms, tileset, x, y, z, ext, callback); r.fields == f || r.fields == StripIfTms(f)
  {
    var f := RequestFields(isTms, tileset, x, y, z, ext, callback);
    match Dispatch.Dispatch(ext, callback)
    case JsonTile => JsonTileSpec(env, f, false)
    case JsonpTile => JsonTileSpec(env, f, true)
    case ImageTile => ImageTileSpec(env, f)
    case NoHandler => Outcome(Empty, f)
  }

  /** The tileset field a route hands to serveTile. */
  function RoutedTileset(isTms: bool, layer: string): string
  {
    if isTms then TmsTileset(layer) else layer
  }

  /** On either route, cutting "-tms" off gives back the layer of the URL and leaves
      every other field alone. */
  lemma StripIfTmsRoute(layer: string, f: Fields)
    requires f.tileset == RoutedTileset(f.isTms, layer)
    ensures StripIfTms(f) == f.(tileset := layer)
  {
    StripTmsTileset(layer);
  }

  /** A request as routed: the TMS route goes through serveTmsTile, the XYZ route
      straight to serveTile on a fresh controller. */
  function Route(env: Env, isTms: bool, layer: string, x: int, y: int, z: nat, ext: string, callback: Option<string>): (r: Outcome)
    ensures r.response == Empty <==> Dispatch.Dispatch(ext, callback) == NoHandler
    ensures r.fields.tileset == layer || r.fields.tileset == RoutedTileset(isTms, layer)
  {
    StripTmsTileset(layer);
    ServeSpec(env, isTms, RoutedTileset(isTms, layer), x, y, z, ext, callback)
  }

  /** The etag kind of each handler. */
  function KindOf(h: Handler): EtagKind
  {
    match h
    case JsonTile => Json
    case JsonpTile => Jsonp
    case _ => Img
  }

  /** tileJson: the TileJSON document of the layer as JSON, or JSONP with a callback. */
  function TileJsonSpec(env: Env, layer: string, callback: Option<string>): (r: Response)
    requires UrlEncoding.IsByteString(layer)
    ensures r.NotFound? <==> MBTilesName(layer) !in env.files
    ensures r.Ok? <==> MBTilesName(layer) in env.files && env.files[MBTilesName(layer)].failure.None?
    ensures r.Ok? ==> r.contentType == "application/json" && r.headers == CachingHeaders(None)
  {
    var name := MBTilesName(layer);
    if name !in env.files then MissingContainer(layer)
    else
      var db := env.files[name];
      if db.failure.Some? then QueryError(db)
      else
        var json := env.jsonEncode(TileJsonDoc(db.metadata, layer, env.serverUrl));
        Ok("application/json", Text(Respond(callback, json)), CachingHeaders(None))
  }

  // ---------------------------------------------------------------------------
  // The controller.
  // ---------------------------------------------------------------------------

  class MapTileController {
    var tileset: string
    var x: int
    var y: int
    var z: nat
    var ext: string
    var callback: Option<string>
    var isTms: bool

    function State(): Fields
      reads this
    {
      Fields(tileset, x, y, z, ext, callback, isTms)
    }

    constructor()
      ensures State() == Fields("", 0, 0, 0, "", None, false)
    {
      tileset := "";
      x, y, z := 0, 0, 0;
      ext := "";
      callback := None;
      isTms := false;
    }

    method Set(layer: string, x: int, y: int, z: nat, ext: string, callback: Option<string>)
      modifies this
      ensures State() == Fields(layer, x, y, z, ext, callback, old(isTms))
    {
      this.tileset := layer;
      this.x := x;
      this.y := y;
      this.z := z;
      this.ext := ext;
      this.callback := callback;
    }

    method ServeTile(env: Env, layer: string, x: nat, y: nat, z: nat, ext: string, callback: Option<string>)
      returns (resp: Response)
      modifies this
      ensures Outcome(resp, State()) == ServeSpec(env, old(isTms), layer, x, y, z, ext, callback)
    {
      Set(layer, x, y, z, ext, callback);
      if !isTms {
        this.y := Pow2(this.z) - 1 - this.y;
      }
      ghost var f := State();
      assert f == RequestFields(old(isTms), layer, x, y, z, ext, callback);
      ghost var h := Dispatch.Dispatch(ext, callback);
      var e := ToLower(this.ext);
      if e == "json" || e == "jsonp" {
        if this.callback.None? {
          assert h.JsonTile?;
          resp := JsonTile(env);
        } else {
          assert h.JsonpTile?;
          resp := JsonpTile(env);
        }
      } else if e == "png" || e == "jpeg" || e == "jpg" {
        assert h.ImageTile?;
        resp := ImageTile(env);
      } else {
        assert h.NoHandler?;
        resp := Empty;
      }
    }

    method ServeTmsTile(env: Env, layer: string, x: nat, y: nat, z: nat, ext: string, callback: Option<string>)
      returns (resp: Response)
      modifies this
      ensures Outcome(resp, State()) == Route(env, true, layer, x, y, z, ext, callback)
    {
      isTms := true;
      resp := ServeTile(env, layer + "-tms", x, y, z, ext, callback);
    }

    method JsonTile(env: Env) returns (resp: Response)
      modifies this
      ensures Outcome(resp, State()) == JsonTileSpec(env, old(State()), false)
    {
      var etag := TileEtag(env, State(), Json);
      if CheckCache(etag, env.ifNoneMatch) {
        return NotModified;
      }
      var grid := GetUTFgrid(env);
      match grid {
        case GridAbort(r) => resp := r;
        case GridText(json) => resp := Ok(JsonContentType, Text(json), CachingHeaders(Some(etag)));
      }
    }

    method JsonpTile(env: Env) returns (resp: Response)
      modifies this
      ensures Outcome(resp, State()) == JsonTileSpec(env, old(State()), true)
    {
      var etag := TileEtag(env, State(), Jsonp);
      if CheckCache(etag, env.ifNoneMatch) {
        return NotModified;
      }
      var cb := CallbackText(callback);
      var grid := GetUTFgrid(env);
      match grid {
        case GridAbort(r) => resp := r;
        case GridText(json) =>
          var output := cb + "(" + json + ")";
          resp := Ok(JsonContentType, Text(output), CachingHeaders(Some(etag)));
      }
    }

    method ImageTile(env: Env) returns (resp: Response)
      modifies this
      ensures Outcome(resp, State()) == ImageTileSpec(env, old(State()))
    {
      var etag := TileEtag(env, State(), Img);
      if CheckCache(etag, env.ifNoneMatch) {
        return NotModified;
      }
      if isTms {
        tileset := StripTmsSuffix(tileset);
      }
      var name := MBTilesName(tileset);
      if name !in env.files {
        return MissingContainer(tileset);
      }
      var db := env.files[name];
      if db.failure.Some? {
        return QueryError(db);
      }
      var key := TileKey(z, x, y);
      if key !in db.tiles {
        resp := Ok("image/png", TransparentPng, CachingHeaders(Some(etag)));
      } else {
        var format := TileFormat(FormatValue(db.metadata));
        resp := Ok("image/" + format, Blob(db.tiles[key]), CachingHeaders(Some(etag)));
      }
    }

    method GetUTFgrid(env: Env) returns (result: GridResult)
      modifies this
      ensures GridOutcome(result, State()) == UtfGrid(env, old(State()))
    {
      if isTms {
        tileset := StripTmsSuffix(tileset);
      }
      var name := MBTilesName(tileset);
      if name !in env.files {
        return GridAbort(MissingContainer(tileset));
      }
      var db := env.files[name];
      if db.failure.Some? {
        return GridAbort(QueryError(db));
      }
      var key := TileKey(z, x, y);
      if key !in db.grids {
        return GridText("{}");
      }
      var grid := AssembleGrid(db.grids[key], GridRowsAt(db, key));
      return GridText(grid);
    }

    method TileJson(env: Env, layer: string, callback: Option<string>) returns (resp: Response)
      requires UrlEncoding.IsByteString(layer)
      modifies this
      ensures resp == TileJsonSpec(env, layer, callback)
      ensures State() == old(State()).(tileset := layer)
    {
      tileset := layer;
      var name := MBTilesName(tileset);
      if name !in env.files {
        return MissingContainer(tileset);
      }
      var db := env.files[name];
      if db.failure.Some? {
        return QueryError(db);
      }
      var doc := BuildTileJson(db.metadata, layer, env.serverUrl);
      var json := if callback.Some? then callback.value + "(" + env.jsonEncode(doc) + ")" else env.jsonEncode(doc);
      resp := Ok("application/json", Text(json), CachingHeaders(None));
    }
  }
}
