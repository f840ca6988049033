/**
  Row ordering and container naming. Containers store rows in TMS order (row 0
  at the bottom); XYZ requests count rows from the top and are flipped. The TMS
  route marks its requests by appending "-tms" to the layer name. imageTile cuts
  those four characters off before it opens `<layer>.mbtiles`; etag() and
  getUTFgrid look the file up first, and the controller of this model uses the
  corrected order, stripping before every lookup.
 */
module TileScheme {
  import PhpStrings

  /** pow(2, z): the number of rows (and of columns) at zoom level z. */
  function Pow2(z: nat): (r: nat)
    ensures r >= 1
  {
    if z == 0 then 1 else 2 * Pow2(z - 1)
  }

  /** The XYZ to TMS row flip of serveTile: pow(2, z) - 1 - y. */
  function FlipRow(z: nat, y: int): (r: int)
    ensures 0 <= y < Pow2(z) <==> 0 <= r < Pow2(z)
  {
    Pow2(z) - 1 - y
  }

  /** Flipping twice gives the row back, so the flip is a bijection on [0, 2^z). */
  lemma FlipRowInvolution(z: nat, y: int)
    ensures FlipRow(z, FlipRow(z, y)) == y
  {
  }

  /** The row a request reads from the container: XYZ rows are flipped, TMS rows are used as given. */
  function TileRow(z: nat, y: int, isTms: bool): (r: int)
    ensures isTms ==> r == y
    ensures !isTms ==> r + y == Pow2(z) - 1
  {
    if isTms then y else FlipRow(z, y)
  }

  /** An XYZ request for the flipped row reads the same container row as the TMS request. */
  lemma TileRowSchemesAgree(z: nat, y: int)
    ensures TileRow(z, FlipRow(z, y), false) == TileRow(z, y, true)
  {
    FlipRowInvolution(z, y);
  }

  const TmsSuffix: string := "-tms"

  /** The tileset name serveTmsTile hands to serveTile. */
  function TmsTileset(layer: string): (t: string)
    ensures |t| == |layer| + 4 && t[..|layer|] == layer && t[|layer|..] == TmsSuffix
  {
    layer + TmsSuffix
  }

  /** substr(tileset, 0, strlen(tileset) - 4): cut the marker off again. */
  function StripTmsSuffix(tileset: string): (r: string)
    ensures |tileset| >= 4 ==> r == tileset[..|tileset| - 4]
  {
    PhpStrings.SubstrPrefix(tileset, |tileset| - 4)
  }

  /** Stripping undoes appending, whatever the layer is called. */
  lemma StripTmsTileset(layer: string)
    ensures StripTmsSuffix(TmsTileset(layer)) == layer
  {
    assert TmsTileset(layer)[..|layer|] == layer;
  }

  /** Conversely, appending restores any tileset that carries the marker. */
  lemma TmsTilesetStrip(tileset: string)
    requires |tileset| >= 4 && tileset[|tileset| - 4..] == TmsSuffix
    ensures TmsTileset(StripTmsSuffix(tileset)) == tileset
  {
    assert tileset == tileset[..|tileset| - 4] + tileset[|tileset| - 4..];
  }

  /** BaseClass.getMBTilesName: the container file that backs a layer. */
  function MBTilesName(layer: string): (name: string)
    ensures |name| == |layer| + 8 && name[..|layer|] == layer && name[|layer|..] == ".mbtiles"
  {
    layer + ".mbtiles"
  }

  /** Distinct layers are backed by distinct files. */
  lemma MBTilesNameInjective(a: string, b: string)
    requires MBTilesName(a) == MBTilesName(b)
    ensures a == b
  {
    assert a == MBTilesName(a)[..|a|];
  }

  /** The lookup name on either route: the TMS route strips its marker first. */
  function LookupLayer(tileset: string, isTms: bool): string
  {
    if isTms then StripTmsSuffix(tileset) else tileset
  }

  /** Both routes open the same container for the same layer. */
  lemma {:induction false} ContainerIndependentOfScheme(layer: string)
    ensures MBTilesName(LookupLayer(TmsTileset(layer), true)) == MBTilesName(layer)
    ensures MBTilesName(LookupLayer(layer, false)) == MBTilesName(layer)
  {
    StripTmsTileset(layer);
  }
}
