/**
  The media type of a stored tile: the container's `format` metadata value,
  "png" when there is none, with the exact value "jpg" renamed to "jpeg".
  The comparison is PHP `==` on two strings, so it is case-sensitive.
 */
module ImageFormat {
  import opened Wrappers

  function TileFormat(stored: Option<string>): (f: string)
    ensures f != "jpg"
    ensures stored.None? ==> f == "png"
    ensures stored.Some? && stored.value != "jpg" ==> f == stored.value
    ensures f == "jpeg" <==> stored == Some("jpg") || stored == Some("jpeg")
  {
    match stored
    case None => "png"
    case Some(v) => if v == "jpg" then "jpeg" else v
  }

  /** The Content-type header value of a stored tile. */
  function ContentType(stored: Option<string>): (ct: string)
    ensures |ct| >= 6 && ct[..6] == "image/"
    ensures ct[6..] == "jpeg" <==> stored == Some("jpg") || stored == Some("jpeg")
    ensures ct[6..] == "png" <==> stored.None? || stored == Some("png")
  {
    "image/" + TileFormat(stored)
  }
}
