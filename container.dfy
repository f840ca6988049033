/**
  An .mbtiles container as the tile handlers see it: the file's modification
  time, the metadata rows, the tiles and grids tables keyed by
  (zoom_level, tile_column, tile_row), the grid_data rows per tile, and whether
  its queries fail. Grids are held already decompressed.
 */
module Container {
  import opened Wrappers
  import opened Metadata
  import opened Grid

  datatype TileKey = TileKey(z: int, x: int, y: int)

  datatype MBTiles = MBTiles(
    mtime: nat,
    metadata: seq<MetaRow>,
    tiles: map<TileKey, seq<bv8>>,
    grids: map<TileKey, string>,
    gridData: map<TileKey, seq<GridRow>>,
    failure: Option<string>)  // Some(message) when every query raises a PDOException

  /** `select value from metadata where name="format"`, first row: the value of the
      first row named exactly "format", None when there is none. */
  function FormatValue(metadata: seq<MetaRow>): (v: Option<string>)
    ensures v.None? <==> !HasName(metadata, "format")
    ensures v.Some? ==> exists i ::
              && 0 <= i < |metadata| && metadata[i] == MetaRow("format", v.value)
              && forall j :: 0 <= j < i ==> metadata[j].name != "format"
  {
    if metadata == [] then None
    else if metadata[0].name == "format" then Some(metadata[0].value)
    else
      var rest := FormatValue(metadata[1..]);
      assert HasName(metadata, "format") <==> HasName(metadata[1..], "format") by {
        if HasName(metadata, "format") {
          var i :| 0 <= i < |metadata| && metadata[i].name == "format";
          assert metadata[1..][i - 1].name == "format";
        }
        if HasName(metadata[1..], "format") {
          var i :| 0 <= i < |metadata[1..]| && metadata[1..][i].name == "format";
          assert metadata[i + 1].name == "format";
        }
      }
      if rest.Some? then
        var i :| && 0 <= i < |metadata[1..]| && metadata[1..][i] == MetaRow("format", rest.value)
                 && forall j :: 0 <= j < i ==> metadata[1..][j].name != "format";
        assert metadata[i + 1] == metadata[1..][i];
        assert forall j :: 1 <= j < i + 1 ==> metadata[j] == metadata[1..][j - 1];
        rest
      else rest
  }

  /** The grid_data rows of one tile, in query order; none when the tile has none. */
  function GridRowsAt(db: MBTiles, key: TileKey): seq<GridRow>
  {
    if key in db.gridData then db.gridData[key] else []
  }
}
