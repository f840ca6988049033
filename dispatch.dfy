/**
  The extension switch of serveTile: which handler a request reaches, from its
  extension (compared after strtolower) and whether a JSONP callback is present.
 */
module Dispatch {
  import opened Wrappers
  import opened PhpStrings

  datatype Handler =
    | JsonTile    // grid as plain JSON
    | JsonpTile   // grid wrapped in the callback
    | ImageTile   // stored tile or transparent placeholder
    | NoHandler   // no case matches: nothing is produced

  function Dispatch(ext: string, callback: Option<string>): (h: Handler)
    ensures h == ImageTile <==>
      EqualsIgnoreCase(ext, "png") || EqualsIgnoreCase(ext, "jpeg") || EqualsIgnoreCase(ext, "jpg")
    ensures h == JsonTile <==>
      (EqualsIgnoreCase(ext, "json") || EqualsIgnoreCase(ext, "jsonp")) && callback.None?
    ensures h == JsonpTile <==>
      (EqualsIgnoreCase(ext, "json") || EqualsIgnoreCase(ext, "jsonp")) && callback.Some?
  {
    ToLowerEqualsLiteral(ext, "json");
    ToLowerEqualsLiteral(ext, "jsonp");
    ToLowerEqualsLiteral(ext, "png");
    ToLowerEqualsLiteral(ext, "jpeg");
    ToLowerEqualsLiteral(ext, "jpg");
    var e := ToLower(ext);
    if e == "json" || e == "jsonp" then
      if callback.None? then JsonTile else JsonpTile
    else if e == "png" || e == "jpeg" || e == "jpg" then ImageTile
    else NoHandler
  }

  /** Only the letters' case is ignored: two spellings that agree up to case reach the same handler. */
  lemma {:induction false} DispatchIgnoresCase(a: string, b: string, callback: Option<string>)
    requires EqualsIgnoreCase(a, b)
    ensures Dispatch(a, callback) == Dispatch(b, callback)
  {
    forall lit: string | EqualsIgnoreCase(a, lit)
      ensures EqualsIgnoreCase(b, lit)
    {
    }
    forall lit: string | EqualsIgnoreCase(b, lit)
      ensures EqualsIgnoreCase(a, lit)
    {
    }
  }
}
