/**
  Cache validation for tile responses: the etag is sha1 of the text
  "tileset-x-y-z-type-mtime", a conditional request whose If-None-Match equals
  it is answered "304 Not Modified", and every served tile carries caching
  headers. sha1 itself is a parameter: any function from the formatted text.
 */
module Cache {
  import opened Wrappers
  import opened Decimal

  /** The response kinds that get an etag: "img", "json" and "jsonp". */
  datatype EtagKind = Img | Json | Jsonp

  function KindName(k: EtagKind): string
  {
    match k
    case Img => "img"
    case Json => "json"
    case Jsonp => "jsonp"
  }

  /** filemtime() as "%s" prints it; a missing file gives false, which prints as "". */
  function MtimeStr(mtime: Option<nat>): string
  {
    match mtime
    case None => ""
    case Some(t) => NatStr(t)
  }

  /** sprintf("%s-%s-%s-%s-%s-%s", tileset, x, y, z, type, mtime). */
  function EtagKey(tileset: string, x: int, y: int, z: int, kind: EtagKind, mtime: Option<nat>): (key: string)
    ensures |key| > |MtimeStr(mtime)|
    ensures key[|key| - |MtimeStr(mtime)|..] == MtimeStr(mtime) && key[|key| - |MtimeStr(mtime)| - 1] == '-'
  {
    var front := tileset + "-" + IntStr(x) + "-" + IntStr(y) + "-" + IntStr(z) + "-" + KindName(kind);
    ConcatEnds(front + "-", MtimeStr(mtime));
    front + "-" + MtimeStr(mtime)
  }

  /** Both parts of a concatenation can be read back from it. */
  lemma ConcatEnds(a: string, b: string)
    ensures (a + b)[..|a|] == a && (a + b)[|a|..] == b
  {
  }

  /** checkCache: "not modified" exactly when If-None-Match is set and equals the etag. */
  function CheckCache(etag: string, ifNoneMatch: Option<string>): (notModified: bool)
    ensures notModified <==> ifNoneMatch == Some(etag)
  {
    ifNoneMatch.Some? && ifNoneMatch.value == etag
  }

  /** One day in seconds: the max-age of every tile response. */
  const Day: nat := 60 * 60 * 24

  type Header = (string, string)

  /** cachingHeaders($etag): Pragma, Cache-Control and, when given, ETag. */
  function CachingHeaders(etag: Option<string>): (hs: seq<Header>)
    ensures ("Pragma", "cache") in hs && ("Cache-Control", "max-age=86400") in hs
    ensures forall e :: ("ETag", e) in hs <==> etag == Some(e)
  {
    var expires := 1 * Day;
    assert expires == 86400;
    assert NatStr(8) == "8";
    assert NatStr(86) == NatStr(8) + "6" == "86";
    assert NatStr(864) == NatStr(86) + "4" == "864";
    assert NatStr(8640) == NatStr(864) + "0" == "8640";
    assert NatStr(expires) == NatStr(8640) + "0" == "86400";
    assert "max-age=" + NatStr(expires) == "max-age=86400";
    [("Pragma", "cache"), ("Cache-Control", "max-age=" + NatStr(expires))]
      + (match etag case Some(e) => [("ETag", e)] case None => [])
  }

  predicate DashFree(s: string) { '-' !in s }

  /** Text after the last dash is determined: a + "-" + b splits uniquely when b has no dash. */
  lemma DashCancel(a1: string, b1: string, a2: string, b2: string)
    requires DashFree(b1) && DashFree(b2)
    requires a1 + "-" + b1 == a2 + "-" + b2
    ensures a1 == a2 && b1 == b2
  {
    var s := a1 + "-" + b1;
    assert s[|s| - |b1| - 1] == '-';
    assert s[|s| - |b2| - 1] == '-';
    assert forall i :: |s| - |b1| <= i < |s| ==> s[i] == b1[i - (|s| - |b1|)];
    assert forall i :: |s| - |b2| <= i < |s| ==> s[i] == b2[i - (|s| - |b2|)];
    assert |b1| == |b2|;
    assert a1 == s[..|a1|] == a2;
    assert b1 == s[|a1| + 1..] == b2;
  }

  lemma NatStrDashFree(n: nat)
    ensures DashFree(NatStr(n))
  {
    var s := NatStr(n);
    assert forall i :: 0 <= i < |s| ==> IsDigit(s[i]);
  }

  lemma MtimeStrInjective(m1: Option<nat>, m2: Option<nat>)
    requires MtimeStr(m1) == MtimeStr(m2)
    ensures m1 == m2
  {
    match m1
    case None =>
    case Some(t1) =>
      match m2
      case None =>
      case Some(t2) => NatStrInjective(t1, t2);
  }

  lemma KindNameInjective(k1: EtagKind, k2: EtagKind)
    requires KindName(k1) == KindName(k2)
    ensures k1 == k2
  {
  }

  /** The key keeps all six fields apart: for non-negative coordinates, equal keys
      mean equal requests, so a new container mtime always gives a new key. The
      tileset itself may contain dashes; it is recovered as what precedes the last five. */
  lemma {:induction false} EtagKeyInjective(
    t1: string, x1: nat, y1: nat, z1: nat, k1: EtagKind, m1: Option<nat>,
    t2: string, x2: nat, y2: nat, z2: nat, k2: EtagKind, m2: Option<nat>)
    requires EtagKey(t1, x1, y1, z1, k1, m1) == EtagKey(t2, x2, y2, z2, k2, m2)
    ensures t1 == t2 && x1 == x2 && y1 == y2 && z1 == z2 && k1 == k2 && m1 == m2
  {
    NatStrDashFree(x1); NatStrDashFree(y1); NatStrDashFree(z1);
    NatStrDashFree(x2); NatStrDashFree(y2); NatStrDashFree(z2);
    match m1 { case Some(t) => NatStrDashFree(t); case None => }
    match m2 { case Some(t) => NatStrDashFree(t); case None => }
    assert DashFree(KindName(k1)) && DashFree(KindName(k2));
    DashCancel(t1 + "-" + NatStr(x1) + "-" + NatStr(y1) + "-" + NatStr(z1) + "-" + KindName(k1), MtimeStr(m1),
               t2 + "-" + NatStr(x2) + "-" + NatStr(y2) + "-" + NatStr(z2) + "-" + KindName(k2), MtimeStr(m2));
    MtimeStrInjective(m1, m2);
    DashCancel(t1 + "-" + NatStr(x1) + "-" + NatStr(y1) + "-" + NatStr(z1), KindName(k1),
               t2 + "-" + NatStr(x2) + "-" + NatStr(y2) + "-" + NatStr(z2), KindName(k2));
    KindNameInjective(k1, k2);
    DashCancel(t1 + "-" + NatStr(x1) + "-" + NatStr(y1), NatStr(z1),
               t2 + "-" + NatStr(x2) + "-" + NatStr(y2), NatStr(z2));
    NatStrInjective(z1, z2);
    DashCancel(t1 + "-" + NatStr(x1), NatStr(y1), t2 + "-" + NatStr(x2), NatStr(y2));
    NatStrInjective(y1, y2);
    DashCancel(t1, NatStr(x1), t2, NatStr(x2));
    NatStrInjective(x1, x2);
  }

  /** Republishing a container (a new mtime) changes the key for every request. */
  lemma EtagKeyTracksMtime(t: string, x: nat, y: nat, z: nat, k: EtagKind, m1: Option<nat>, m2: Option<nat>)
    requires m1 != m2
    ensures EtagKey(t, x, y, z, k, m1) != EtagKey(t, x, y, z, k, m2)
  {
    if EtagKey(t, x, y, z, k, m1) == EtagKey(t, x, y, z, k, m2) {
      EtagKeyInjective(t, x, y, z, k, m1, t, x, y, z, k, m2);
    }
  }
}
