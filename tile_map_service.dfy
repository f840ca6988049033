/**
  The metadata helpers of TileMapServiceController: readparams turns the
  metadata rows into a dictionary, and readzooms lists the zoom levels a
  container covers, minzoom to maxzoom inclusive.
 */
module TileMapService {
  import opened Wrappers
  import opened Metadata
  import Decimal

  /** The dictionary after assigning every row in order: later rows overwrite. */
  function ParamsOf(rows: seq<MetaRow>): map<string, string>
  {
    if rows == [] then map[]
    else ParamsOf(rows[..|rows| - 1])[rows[|rows| - 1].name := rows[|rows| - 1].value]
  }

  /** readparams: params[name] = value for every row, in row order. */
  method ReadParams(rows: seq<MetaRow>) returns (params: map<string, string>)
    ensures forall k :: k in params <==> HasName(rows, k)
    ensures forall k :: k in params ==> params[k] == LastValue(rows, k)
  {
    params := map[];
    for i := 0 to |rows|
      invariant params == ParamsOf(rows[..i])
    {
      assert rows[..i + 1][..i] == rows[..i];
      params := params[rows[i].name := rows[i].value];
    }
    assert rows[..|rows|] == rows;
    ParamsOfLookup(rows);
  }

  /** The dictionary holds exactly the names that occur, each with its last row's value. */
  lemma {:induction false} ParamsOfLookup(rows: seq<MetaRow>)
    ensures forall k :: k in ParamsOf(rows) <==> HasName(rows, k)
    ensures forall k :: k in ParamsOf(rows) ==> ParamsOf(rows)[k] == LastValue(rows, k)
  {
    if rows != [] {
      var init := rows[..|rows| - 1];
      ParamsOfLookup(init);
      forall k
        ensures k in ParamsOf(rows) <==> HasName(rows, k)
      {
        HasNameSnoc(rows, k);
      }
    }
  }

  /** range(lo, hi + 1): every integer from lo to hi, ascending; empty when hi < lo. */
  function ZoomRange(lo: int, hi: int): (r: seq<int>)
    ensures |r| == if hi < lo then 0 else hi - lo + 1
    ensures forall i :: 0 <= i < |r| ==> r[i] == lo + i
    decreases hi - lo
  {
    if hi < lo then [] else ZoomRange(lo, hi - 1) + [hi]
  }

  /** A zoom level is listed exactly when it lies between the two bounds. */
  lemma ZoomRangeMembers(lo: int, hi: int, z: int)
    ensures z in ZoomRange(lo, hi) <==> lo <= z <= hi
  {
    var r := ZoomRange(lo, hi);
    if lo <= z <= hi {
      assert r[z - lo] == z;
    }
  }

  /** The listed levels are exactly those between the bounds, each one more than the last. */
  lemma ZoomRangeSpan(lo: int, hi: int)
    ensures forall z :: z in ZoomRange(lo, hi) <==> lo <= z <= hi
    ensures forall i :: 0 < i < |ZoomRange(lo, hi)| ==> ZoomRange(lo, hi)[i] == ZoomRange(lo, hi)[i - 1] + 1
  {
    forall z {
      ZoomRangeMembers(lo, hi, z);
    }
  }

  /** The value readzooms reads for one bound, as an integer: None when the name
      is missing or its value is not a decimal integer. */
  function ZoomBound(rows: seq<MetaRow>, k: string): Option<int>
  {
    if HasName(rows, k) then Decimal.ParseInt(LastValue(rows, k)) else None
  }

  /** One bound looked up in the dictionary and converted with int(). */
  function BoundIn(params: map<string, string>, k: string): Option<int>
  {
    if k in params then Decimal.ParseInt(params[k]) else None
  }

  /** Looking a bound up in the dictionary readparams built gives the bound of the rows. */
  lemma BoundInParams(rows: seq<MetaRow>, params: map<string, string>, k: string)
    requires forall k :: k in params <==> HasName(rows, k)
    requires forall k :: k in params ==> params[k] == LastValue(rows, k)
    ensures BoundIn(params, k) == ZoomBound(rows, k)
  {
  }

  /** readzooms: read the parameters, then list minzoom..maxzoom. A missing
      bound or a value that is not an integer is an error (None). */
  method ReadZooms(rows: seq<MetaRow>) returns (zooms: Option<seq<int>>)
    ensures zooms.Some? <==> ZoomBound(rows, "minzoom").Some? && ZoomBound(rows, "maxzoom").Some?
    ensures zooms.Some? ==> forall z :: z in zooms.value <==>
      ZoomBound(rows, "minzoom").value <= z <= ZoomBound(rows, "maxzoom").value
    ensures zooms.Some? ==> forall i :: 0 < i < |zooms.value| ==> zooms.value[i] == zooms.value[i - 1] + 1
  {
    var params := ReadParams(rows);
    var lo := BoundIn(params, "minzoom");
    var hi := BoundIn(params, "maxzoom");
    BoundInParams(rows, params, "minzoom");
    BoundInParams(rows, params, "maxzoom");
    if lo.None? || hi.None? {
      return None;
    }
    zooms := Some(ZoomRange(lo.value, hi.value));
    ZoomRangeSpan(lo.value, hi.value);
  }
}
