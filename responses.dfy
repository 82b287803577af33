/**
 * The HTTP response every path of the handler returns: a status code, three
 * fixed cross-origin headers and a JSON body. The body is kept as a value;
 * its serialisation to JSON text is not modelled.
 */
module Responses {
  import opened Entries

  /** A response body: `{"message": text}`, or the list of a partition's entries. */
  datatype Body = Message(text: string) | EntryList(items: set<Item>)

  datatype Response = Response(statusCode: int, headers: map<string, string>, body: Body)

  const AllowOrigin := "Access-Control-Allow-Origin"
  const AllowHeaders := "Access-Control-Allow-Headers"
  const AllowMethods := "Access-Control-Allow-Methods"

  /** `response_builder(status, body)`. */
  function ResponseBuilder(status: int, body: Body): (r: Response)
    ensures r.statusCode == status && r.body == body
    ensures r.headers.Keys == {AllowOrigin, AllowHeaders, AllowMethods}
    ensures r.headers[AllowOrigin] == "*"
    ensures r.headers[AllowHeaders] == "Content-Type,Authorization"
    ensures r.headers[AllowMethods] == "GET,POST,DELETE"
  {
    Response(status, map[
      AllowOrigin := "*",
      AllowHeaders := "Content-Type,Authorization",
      AllowMethods := "GET,POST,DELETE"
    ], body)
  }

  /** Every built response carries exactly the same headers. */
  lemma HeadersFixed(s1: int, b1: Body, s2: int, b2: Body)
    ensures ResponseBuilder(s1, b1).headers == ResponseBuilder(s2, b2).headers
  {
  }
}
