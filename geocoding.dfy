/**
 * `getCoordinates`: turning the geocoding provider's answer for a place name
 * into a coordinate.  The HTTP request itself is not modelled; its outcome is
 * the `answer` parameter, which says what the response body was.
 */
module Geocoding {
  import opened Wrappers

  /** One match in the provider's answer: latitude and longitude as the text the provider sends. */
  datatype Match = Match(lat: string, lon: string, displayName: string)

  /**
   * The outcome of the request: it threw (or the body was empty/falsy), a JSON
   * list of matches, a body that stayed text (one axios could not parse as
   * JSON), or a JSON object, which has no `length`.
   */
  datatype Answer = Failed | Matches(list: seq<Match>) | Text(body: string) | Object

  /** A JavaScript property read: a value, or `undefined` when the property is missing. */
  datatype JsValue = Undefined | Str(s: string)

  /** What `getCoordinates` returns on success. */
  datatype Coord = Coord(lat: JsValue, lon: JsValue, name: JsValue)

  /**
   * `data && data.length > 0` picks `data[0]`: the first match of a non-empty
   * list, or the first character of a non-empty text body, whose `lat`, `lon`
   * and `display_name` are then all undefined.  Anything else is "not found".
   */
  function GetCoordinates(answer: Answer): (r: Option<Coord>)
    ensures r.Some? <==> (answer.Matches? && |answer.list| > 0) || (answer.Text? && |answer.body| > 0)
    ensures r.Some? && answer.Matches? ==>
      var first := answer.list[0];
      r.value.lat == Str(first.lat) && r.value.lon == Str(first.lon) && r.value.name == Str(first.displayName)
    ensures r.Some? && answer.Text? ==> r.value == Coord(Undefined, Undefined, Undefined)
  {
    match answer
    case Matches(list) =>
      if |list| > 0 then Some(Coord(Str(list[0].lat), Str(list[0].lon), Str(list[0].displayName))) else None
    case Text(body) =>
      if |body| > 0 then Some(Coord(Undefined, Undefined, Undefined)) else None
    case _ => None
  }

  /** Only the first match matters: later matches never change the result. */
  lemma FirstMatchWins(first: Match, rest1: seq<Match>, rest2: seq<Match>)
    ensures GetCoordinates(Matches([first] + rest1)) == GetCoordinates(Matches([first] + rest2))
    ensures GetCoordinates(Matches([first] + rest1)).Some?
  {
  }
}
