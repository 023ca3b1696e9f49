/** The `/api/properties` route: lists the property fixture. */
module Properties {
  import opened Js
  import opened Http

  /** A JSON array of the fixture's records, or plain text passed to `res.end`. */
  datatype ListReply<P> = Listing(items: seq<P>) | Ended(text: string)

  /** The route handler over a read-only fixture whose records are opaque here. */
  function Handle<P>(verb: Option<string>, fixture: seq<P>): (r: Response<ListReply<P>>)
    ensures r.status == 200 <==> verb == Some("GET")
    ensures r.status == 405 <==> verb != Some("GET")
    ensures r.status == 200 ==> r.body == Listing(fixture)
    ensures r.allow.Some? <==> r.status == 405
    ensures r.allow.Some? ==> r.allow.value == ["GET"]
    ensures r.status == 405 ==> r.body == Ended(NotAllowedText(verb))
  {
    if verb == Some("GET") then
      Response(200, None, Listing(fixture))
    else
      Response(405, Some(["GET"]), Ended(NotAllowedText(verb)))
  }
}
