/**
  JSONP wrapping: a JSON text handed to a script callback as
  `callback(json)`. Both jsonpTile and tileJson build the body this way.
 */
module Jsonp {
  import opened Wrappers

  /** callback . "(" . json . ")" */
  function Wrap(callback: string, json: string): (out: string)
    ensures |out| == |callback| + |json| + 2
    ensures out[..|callback|] == callback
    ensures out[|callback|] == '(' && out[|out| - 1] == ')'
    ensures out[|callback| + 1..|out| - 1] == json
  {
    callback + "(" + json + ")"
  }

  /** A PHP null callback concatenates as the empty string. */
  function CallbackText(callback: Option<string>): string
  {
    match callback
    case None => ""
    case Some(c) => c
  }

  /** The body served for a JSON document: wrapped when a callback is given, as is otherwise. */
  function Respond(callback: Option<string>, json: string): (out: string)
    ensures callback.None? ==> out == json
    ensures callback.Some? ==> out == Wrap(callback.value, json)
  {
    match callback
    case None => json
    case Some(c) => Wrap(c, json)
  }

  /** The wrapped text determines both parts when the callback name has no '(':
      the callback is everything before the first '(' and the JSON is what lies
      between it and the final ')'. */
  lemma WrapInjective(c1: string, j1: string, c2: string, j2: string)
    requires '(' !in c1 && '(' !in c2
    requires Wrap(c1, j1) == Wrap(c2, j2)
    ensures c1 == c2 && j1 == j2
  {
    var w := Wrap(c1, j1);
    assert c1 == w[..|c1|] == c2;
    assert j1 == w[|c1| + 1..|w| - 1] == j2;
  }
}
