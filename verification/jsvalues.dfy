/** JavaScript value conventions shared by the server and the voice extractor. */
module JsValues {
  import opened Wrappers
  import Text

  /** JavaScript truthiness of an optional string: present and non-empty. */
  predicate Truthy(o: Option<string>) {
    o.Some? && o.value != ""
  }

  /** A session id or its default: the given id if non-empty, else `session_` and the clock in decimal. */
  function SessionOr(sessionId: Option<string>, now: nat): (r: string)
    ensures Truthy(sessionId) ==> r == sessionId.value
    ensures !Truthy(sessionId) ==>
      && |r| > 8
      && r[..8] == "session_"
      && Text.IsCanonicalDecimal(r[8..])
      && Text.ParseDecimal(r[8..]) == now
  {
    if Truthy(sessionId) then sessionId.value
    else
      var r := "session_" + Text.Decimal(now);
      assert r[..8] == "session_" && r[8..] == Text.Decimal(now);
      Text.DecimalRoundTrip(now);
      r
  }
}
