/**
  TileJSON synthesis (tileJson). The document is a PHP array: an ordered map in
  which assigning an existing key replaces its value in place and assigning a
  new key appends it. It starts with tilejson = "2.0.0" and scheme = "xyz",
  takes every metadata row under its trimmed name (minzoom and maxzoom through
  intval()), splits bounds and center on commas, and ends with the tiles and
  grids URL templates.
 */
module TileJson {
  import opened Wrappers
  import opened Metadata
  import PhpStrings
  import Decimal
  import UrlEncoding

  /** The values the document holds. JFloats is array_map('floatval', pieces):
      the pieces are kept as text because floatval() is not modelled. */
  datatype JsonValue =
    | JString(s: string)
    | JInt(i: int)
    | JFloats(pieces: seq<string>)
    | JStrings(items: seq<string>)

  type PhpArray = seq<(string, JsonValue)>

  function Keys(a: PhpArray): (ks: seq<string>)
    ensures |ks| == |a| && forall i :: 0 <= i < |a| ==> ks[i] == a[i].0
  {
    if a == [] then [] else [a[0].0] + Keys(a[1..])
  }

  predicate Distinct(ks: seq<string>)
  {
    forall i, j :: 0 <= i < j < |ks| ==> ks[i] != ks[j]
  }

  /** $a[k] when array_key_exists(k, $a), None otherwise. */
  function Lookup(a: PhpArray, k: string): (v: Option<JsonValue>)
    ensures v.Some? <==> k in Keys(a)
  {
    if a == [] then None else if a[0].0 == k then Some(a[0].1) else Lookup(a[1..], k)
  }

  /** $a[k] = v: an existing key keeps its place, a new key goes last. */
  function Put(a: PhpArray, k: string, v: JsonValue): (r: PhpArray)
    ensures k in Keys(a) ==> Keys(r) == Keys(a)
    ensures k !in Keys(a) ==> Keys(r) == Keys(a) + [k]
  {
    if a == [] then [(k, v)]
    else if a[0].0 == k then
      assert Keys([(k, v)] + a[1..]) == [k] + Keys(a[1..]);
      [(k, v)] + a[1..]
    else
      var rest := Put(a[1..], k, v);
      assert Keys([a[0]] + rest) == [a[0].0] + Keys(rest);
      [a[0]] + rest
  }

  /** After $a[k] = v, k holds v and every other key holds what it held. */
  lemma {:induction false} PutLookup(a: PhpArray, k: string, v: JsonValue, k': string)
    ensures Lookup(Put(a, k, v), k') == if k' == k then Some(v) else Lookup(a, k')
  {
    if a != [] {
      if a[0].0 == k {
        assert ([(k, v)] + a[1..])[1..] == a[1..];
      } else {
        PutLookup(a[1..], k, v, k');
        assert ([a[0]] + Put(a[1..], k, v))[1..] == Put(a[1..], k, v);
      }
    }
  }

  /** Assignment never creates a second copy of a key. */
  lemma PutDistinct(a: PhpArray, k: string, v: JsonValue)
    requires Distinct(Keys(a))
    ensures Distinct(Keys(Put(a, k, v)))
  {
  }

  /** The document before any metadata is read. */
  const Initial: PhpArray := [("tilejson", JString("2.0.0")), ("scheme", JString("xyz"))]

  /** A value as it is stored: intval() for the two zoom keys, the text otherwise. */
  function Coerce(key: string, value: string): (v: JsonValue)
    ensures key == "minzoom" || key == "maxzoom" ==> v == JInt(Decimal.IntVal(value))
    ensures key != "minzoom" && key != "maxzoom" ==> v == JString(value)
  {
    if key == "maxzoom" || key == "minzoom" then JInt(Decimal.IntVal(value)) else JString(value)
  }

  /** The metadata rows under their trimmed names: the names the document uses. */
  function Trimmed(rows: seq<MetaRow>): (t: seq<MetaRow>)
    ensures |t| == |rows|
    ensures forall i :: 0 <= i < |rows| ==> t[i] == MetaRow(PhpStrings.Trim(rows[i].name), rows[i].value)
  {
    seq(|rows|, i requires 0 <= i < |rows| => MetaRow(PhpStrings.Trim(rows[i].name), rows[i].value))
  }

  /** The document after the metadata loop has read these rows. */
  function Absorb(rows: seq<MetaRow>): (doc: PhpArray)
    ensures |Keys(doc)| >= 2 && Keys(doc)[..2] == ["tilejson", "scheme"]
  {
    if rows == [] then Initial
    else
      var row := rows[|rows| - 1];
      var key := PhpStrings.Trim(row.name);
      var prev := Absorb(rows[..|rows| - 1]);
      PutKeepsFront(prev, key, Coerce(key, row.value));
      Put(prev, key, Coerce(key, row.value))
  }

  /** Setting a key never moves the keys already at the front. */
  lemma PutKeepsFront(a: PhpArray, k: string, v: JsonValue)
    requires |Keys(a)| >= 2
    ensures |Keys(Put(a, k, v))| >= 2 && Keys(Put(a, k, v))[..2] == Keys(a)[..2]
  {
    if k !in Keys(a) {
      assert (Keys(a) + [k])[..2] == Keys(a)[..2];
    }
  }

  /** explode(',', $a[key]) when the key is present. */
  function SplitField(a: PhpArray, key: string): PhpArray
  {
    match Lookup(a, key)
    case Some(JString(s)) => Put(a, key, JFloats(PhpStrings.Split(s, ',')))
    case _ => a
  }

  /** explode() rewrites only the named key, and only when it holds text. */
  lemma SplitFieldLookup(a: PhpArray, key: string, k: string)
    ensures k != key ==> Lookup(SplitField(a, key), k) == Lookup(a, k)
    ensures Lookup(a, key).Some? && Lookup(a, key).value.JString? ==>
      Lookup(SplitField(a, key), key) == Some(JFloats(PhpStrings.Split(Lookup(a, key).value.s, ',')))
    ensures Lookup(a, key) == None ==> Lookup(SplitField(a, key), key) == None
  {
    match Lookup(a, key)
    case Some(JString(s)) =>
      PutLookup(a, key, JFloats(PhpStrings.Split(s, ',')), k);
      PutLookup(a, key, JFloats(PhpStrings.Split(s, ',')), key);
    case _ =>
  }

  function TileUrl(serverUrl: string, layer: string): string
    requires UrlEncoding.IsByteString(layer)
  {
    serverUrl + "/" + UrlEncoding.UrlEncode(layer) + "/{z}/{x}/{y}.png"
  }

  function GridUrl(serverUrl: string, layer: string): string
    requires UrlEncoding.IsByteString(layer)
  {
    serverUrl + "/" + UrlEncoding.UrlEncode(layer) + "/{z}/{x}/{y}.json"
  }

  /** Everything after the metadata loop: the comma splits and the URL templates. */
  function Finish(a: PhpArray, layer: string, serverUrl: string): PhpArray
    requires UrlEncoding.IsByteString(layer)
  {
    var b := SplitField(SplitField(a, "bounds"), "center");
    Put(Put(b, "tiles", JStrings([TileUrl(serverUrl, layer)])), "grids", JStrings([GridUrl(serverUrl, layer)]))
  }

  /** The $tilejson array tileJson hands to json_encode. */
  function TileJsonDoc(rows: seq<MetaRow>, layer: string, serverUrl: string): (doc: PhpArray)
    requires UrlEncoding.IsByteString(layer)
    ensures Lookup(doc, "tiles") == Some(JStrings([TileUrl(serverUrl, layer)]))
    ensures Lookup(doc, "grids") == Some(JStrings([GridUrl(serverUrl, layer)]))
  {
    var b := SplitField(SplitField(Absorb(rows), "bounds"), "center");
    var c := Put(b, "tiles", JStrings([TileUrl(serverUrl, layer)]));
    PutLookup(b, "tiles", JStrings([TileUrl(serverUrl, layer)]), "tiles");
    PutLookup(c, "grids", JStrings([GridUrl(serverUrl, layer)]), "tiles");
    PutLookup(c, "grids", JStrings([GridUrl(serverUrl, layer)]), "grids");
    Finish(Absorb(rows), layer, serverUrl)
  }

  /** The metadata loop of tileJson: each row under its trimmed name, the zoom keys through intval(). */
  method ReadMetadata(rows: seq<MetaRow>) returns (doc: PhpArray)
    ensures doc == Absorb(rows)
  {
    doc := [];
    doc := Put(doc, "tilejson", JString("2.0.0"));
    doc := Put(doc, "scheme", JString("xyz"));
    InitialByAssignment();
    assert rows[..0] == [];
    var i := 0;
    while i < |rows|
      invariant 0 <= i <= |rows|
      invariant doc == Absorb(rows[..i])
    {
      var key := PhpStrings.Trim(rows[i].name);
      var value := JString(rows[i].value);
      if key == "maxzoom" || key == "minzoom" {
        value := JInt(Decimal.IntVal(rows[i].value));
      }
      assert value == Coerce(key, rows[i].value);
      AbsorbStep(rows, i);
      doc := Put(doc, key, value);
      i := i + 1;
    }
    assert rows[..i] == rows;
  }

  /** One more row is one more Put. */
  lemma AbsorbStep(rows: seq<MetaRow>, i: nat)
    requires i < |rows|
    ensures Absorb(rows[..i + 1]) ==
      Put(Absorb(rows[..i]), PhpStrings.Trim(rows[i].name), Coerce(PhpStrings.Trim(rows[i].name), rows[i].value))
  {
    assert rows[..i + 1][..i] == rows[..i];
  }

  /** $tilejson = array(); then the two fixed assignments. */
  lemma InitialByAssignment()
    ensures Put(Put([], "tilejson", JString("2.0.0")), "scheme", JString("xyz")) == Initial
  {
  }

  /** The body of tileJson up to json_encode: read the metadata, split, add the URL templates. */
  method BuildTileJson(rows: seq<MetaRow>, layer: string, serverUrl: string) returns (doc: PhpArray)
    requires UrlEncoding.IsByteString(layer)
    ensures doc == TileJsonDoc(rows, layer, serverUrl)
  {
    doc := ReadMetadata(rows);
    ghost var read := doc;
    match Lookup(doc, "bounds") {
      case Some(JString(s)) => doc := Put(doc, "bounds", JFloats(PhpStrings.Split(s, ',')));
      case _ =>
    }
    assert doc == SplitField(read, "bounds");
    ghost var bounded := doc;
    match Lookup(doc, "center") {
      case Some(JString(s)) => doc := Put(doc, "center", JFloats(PhpStrings.Split(s, ',')));
      case _ =>
    }
    assert doc == SplitField(bounded, "center");
    doc := Put(doc, "tiles", JStrings([serverUrl + "/" + UrlEncoding.UrlEncode(layer) + "/{z}/{x}/{y}.png"]));
    doc := Put(doc, "grids", JStrings([serverUrl + "/" + UrlEncoding.UrlEncode(layer) + "/{z}/{x}/{y}.json"]));
  }

  // ---------------------------------------------------------------------------
  // What the document holds.
  // ---------------------------------------------------------------------------

  /** After the loop, each key holds its last row's coerced value, or its initial value when no row names it. */
  lemma {:induction false} AbsorbLookup(rows: seq<MetaRow>, k: string)
    ensures HasName(Trimmed(rows), k) ==> Lookup(Absorb(rows), k) == Some(Coerce(k, LastValue(Trimmed(rows), k)))
    ensures !HasName(Trimmed(rows), k) ==> Lookup(Absorb(rows), k) == Lookup(Initial, k)
  {
    if rows != [] {
      var init := rows[..|rows| - 1];
      var t := Trimmed(rows);
      assert Trimmed(init) == t[..|t| - 1];
      AbsorbLookup(init, k);
      HasNameSnoc(t, k);
      var key := PhpStrings.Trim(rows[|rows| - 1].name);
      PutLookup(Absorb(init), key, Coerce(key, rows[|rows| - 1].value), k);
    }
  }

  /** The loop never duplicates a key. */
  lemma {:induction false} AbsorbKeys(rows: seq<MetaRow>)
    ensures Distinct(Keys(Absorb(rows)))
  {
    if rows != [] {
      var init := rows[..|rows| - 1];
      AbsorbKeys(init);
      var row := rows[|rows| - 1];
      var key := PhpStrings.Trim(row.name);
      PutDistinct(Absorb(init), key, Coerce(key, row.value));
    }
  }

  /** The splits and URL templates keep the front keys in place and add no duplicates. */
  lemma FinishKeys(a: PhpArray, layer: string, serverUrl: string)
    requires UrlEncoding.IsByteString(layer)
    requires |Keys(a)| >= 2 && Keys(a)[..2] == ["tilejson", "scheme"] && Distinct(Keys(a))
    ensures |Keys(Finish(a, layer, serverUrl))| >= 2
    ensures Keys(Finish(a, layer, serverUrl))[..2] == ["tilejson", "scheme"]
    ensures Distinct(Keys(Finish(a, layer, serverUrl)))
  {
    var b := SplitField(SplitField(a, "bounds"), "center");
    assert Keys(b) == Keys(a);
    var c := Put(b, "tiles", JStrings([TileUrl(serverUrl, layer)]));
    PutDistinct(b, "tiles", JStrings([TileUrl(serverUrl, layer)]));
    assert Keys(c)[..2] == ["tilejson", "scheme"];
    PutDistinct(c, "grids", JStrings([GridUrl(serverUrl, layer)]));
  }

  /** Finishing leaves every key other than the four it rewrites alone. */
  lemma FinishLookupOther(a: PhpArray, layer: string, serverUrl: string, k: string)
    requires UrlEncoding.IsByteString(layer)
    requires k != "bounds" && k != "center" && k != "tiles" && k != "grids"
    ensures Lookup(Finish(a, layer, serverUrl), k) == Lookup(a, k)
  {
    var b1 := SplitField(a, "bounds");
    var b := SplitField(b1, "center");
    var c := Put(b, "tiles", JStrings([TileUrl(serverUrl, layer)]));
    SplitFieldLookup(a, "bounds", k);
    SplitFieldLookup(b1, "center", k);
    PutLookup(b, "tiles", JStrings([TileUrl(serverUrl, layer)]), k);
    PutLookup(c, "grids", JStrings([GridUrl(serverUrl, layer)]), k);
  }

  /** Finishing replaces a textual bounds or center by its comma-separated pieces. */
  lemma FinishLookupSplit(a: PhpArray, layer: string, serverUrl: string, k: string, s: string)
    requires UrlEncoding.IsByteString(layer)
    requires k == "bounds" || k == "center"
    requires Lookup(a, k) == Some(JString(s))
    ensures Lookup(Finish(a, layer, serverUrl), k) == Some(JFloats(PhpStrings.Split(s, ',')))
  {
    var b1 := SplitField(a, "bounds");
    var b := SplitField(b1, "center");
    var c := Put(b, "tiles", JStrings([TileUrl(serverUrl, layer)]));
    SplitFieldLookup(a, "bounds", k);
    SplitFieldLookup(b1, "center", k);
    PutLookup(b, "tiles", JStrings([TileUrl(serverUrl, layer)]), k);
    PutLookup(c, "grids", JStrings([GridUrl(serverUrl, layer)]), k);
    SplitFieldLookup(a, "bounds", "center");
    SplitFieldLookup(a, "center", "bounds");
  }

  /** Finishing adds no bounds or center that was not there. */
  lemma FinishLookupAbsent(a: PhpArray, layer: string, serverUrl: string, k: string)
    requires UrlEncoding.IsByteString(layer)
    requires k == "bounds" || k == "center"
    requires Lookup(a, k) == None
    ensures Lookup(Finish(a, layer, serverUrl), k) == None
  {
    var b1 := SplitField(a, "bounds");
    var b := SplitField(b1, "center");
    var c := Put(b, "tiles", JStrings([TileUrl(serverUrl, layer)]));
    SplitFieldLookup(a, "bounds", k);
    SplitFieldLookup(b1, "center", k);
    PutLookup(b, "tiles", JStrings([TileUrl(serverUrl, layer)]), k);
    PutLookup(c, "grids", JStrings([GridUrl(serverUrl, layer)]), k);
    SplitFieldLookup(a, "bounds", "center");
  }

  /** The document starts with tilejson and scheme and names no key twice. */
  lemma TileJsonKeys(rows: seq<MetaRow>, layer: string, serverUrl: string)
    requires UrlEncoding.IsByteString(layer)
    ensures |Keys(TileJsonDoc(rows, layer, serverUrl))| >= 2
    ensures Keys(TileJsonDoc(rows, layer, serverUrl))[..2] == ["tilejson", "scheme"]
    ensures Distinct(Keys(TileJsonDoc(rows, layer, serverUrl)))
  {
    AbsorbKeys(rows);
    FinishKeys(Absorb(rows), layer, serverUrl);
  }

  /** tilejson is "2.0.0" and scheme is "xyz" unless a metadata row overrides them. */
  lemma TileJsonDefaults(rows: seq<MetaRow>, layer: string, serverUrl: string)
    requires UrlEncoding.IsByteString(layer)
    ensures !HasName(Trimmed(rows), "tilejson") ==>
      Lookup(TileJsonDoc(rows, layer, serverUrl), "tilejson") == Some(JString("2.0.0"))
    ensures !HasName(Trimmed(rows), "scheme") ==>
      Lookup(TileJsonDoc(rows, layer, serverUrl), "scheme") == Some(JString("xyz"))
  {
    AbsorbLookup(rows, "tilejson");
    AbsorbLookup(rows, "scheme");
    FinishLookupOther(Absorb(rows), layer, serverUrl, "tilejson");
    FinishLookupOther(Absorb(rows), layer, serverUrl, "scheme");
  }

  /** Every other metadata name holds the value of its last row, trimmed name and all;
      minzoom and maxzoom as integers. */
  lemma TileJsonMetadata(rows: seq<MetaRow>, layer: string, serverUrl: string, k: string)
    requires UrlEncoding.IsByteString(layer)
    requires HasName(Trimmed(rows), k)
    requires k !in ["bounds", "center", "tiles", "grids"]
    ensures Lookup(TileJsonDoc(rows, layer, serverUrl), k) == Some(Coerce(k, LastValue(Trimmed(rows), k)))
  {
    AbsorbLookup(rows, k);
    FinishLookupOther(Absorb(rows), layer, serverUrl, k);
  }

  /** minzoom, when present, is intval() of its last row's value. */
  lemma TileJsonZoom(rows: seq<MetaRow>, layer: string, serverUrl: string, k: string)
    requires UrlEncoding.IsByteString(layer)
    requires k == "minzoom" || k == "maxzoom"
    requires HasName(Trimmed(rows), k)
    ensures Lookup(TileJsonDoc(rows, layer, serverUrl), k) == Some(JInt(Decimal.IntVal(LastValue(Trimmed(rows), k))))
  {
    AbsorbLookup(rows, k);
    FinishLookupOther(Absorb(rows), layer, serverUrl, k);
  }

  /** bounds and center are present exactly when a row names them, as the comma-separated pieces of the last such row. */
  lemma TileJsonSplits(rows: seq<MetaRow>, layer: string, serverUrl: string, k: string)
    requires UrlEncoding.IsByteString(layer)
    requires k == "bounds" || k == "center"
    ensures HasName(Trimmed(rows), k) ==>
      Lookup(TileJsonDoc(rows, layer, serverUrl), k) == Some(JFloats(PhpStrings.Split(LastValue(Trimmed(rows), k), ',')))
    ensures !HasName(Trimmed(rows), k) ==> Lookup(TileJsonDoc(rows, layer, serverUrl), k) == None
  {
    AbsorbLookup(rows, k);
    InitialKeys(k);
    if HasName(Trimmed(rows), k) {
      FinishLookupSplit(Absorb(rows), layer, serverUrl, k, LastValue(Trimmed(rows), k));
    } else {
      FinishLookupAbsent(Absorb(rows), layer, serverUrl, k);
    }
  }

  /** The initial document holds tilejson and scheme only. */
  lemma InitialKeys(k: string)
    ensures k in Keys(Initial) <==> k == "tilejson" || k == "scheme"
  {
    assert Keys(Initial) == ["tilejson", "scheme"];
  }

  /** Finishing adds tiles and grids and no other key. */
  lemma FinishKeySet(a: PhpArray, layer: string, serverUrl: string, k: string)
    requires UrlEncoding.IsByteString(layer)
    ensures k in Keys(Finish(a, layer, serverUrl)) <==> k in Keys(a) || k == "tiles" || k == "grids"
  {
    var b := SplitField(SplitField(a, "bounds"), "center");
    assert Keys(b) == Keys(a);
  }

  /** The document's keys are the four fixed ones and the trimmed metadata names, nothing else. */
  lemma TileJsonKeySet(rows: seq<MetaRow>, layer: string, serverUrl: string, k: string)
    requires UrlEncoding.IsByteString(layer)
    ensures k in Keys(TileJsonDoc(rows, layer, serverUrl)) <==>
      k == "tilejson" || k == "scheme" || k == "tiles" || k == "grids" || HasName(Trimmed(rows), k)
  {
    AbsorbLookup(rows, k);
    InitialKeys(k);
    FinishKeySet(Absorb(rows), layer, serverUrl, k);
  }
}
