/**
 * The request handler: an authentication gate, routing on the HTTP method,
 * and the three operations (list, create, delete) against the diary table.
 *
 * `Dispatch` and the three `...Outcome` functions state what one invocation
 * does as a pure function of the table's contents before the request: the
 * response and the contents after it. The methods `LambdaHandler`,
 * `GetEntries`, `CreateEntry` and `DeleteEntry` do the same work on a
 * `DiaryTable` and are proved to agree with those functions. The fresh entry
 * id and the creation timestamp are parameters, and so is the JSON decoder.
 */
module Handler {
  import opened Wrappers
  import opened Json
  import opened Sanitizer
  import opened Entries
  import opened Responses

  /**
   * The parts of an inbound request the handler reads. `claims` is the
   * authorizer's JWT claims object, `None` when any level of the path to it
   * is missing; `body` and `pathParameters` are `None` when the request has
   * no such member.
   */
  datatype Event = Event(
    httpMethod: string,
    claims: Option<map<string, string>>,
    body: Option<string>,
    pathParameters: Option<map<string, string>>)

  /** The response to one request together with the table contents it leaves behind. */
  datatype Outcome = Outcome(response: Response, store: Store)

  /** `get_user_id`: the `sub` claim, or nothing when it cannot be reached. */
  function GetUserId(ev: Event): (r: Option<string>)
    ensures r.Some? <==> ev.claims.Some? && "sub" in ev.claims.value
    ensures r.Some? ==> r.value == ev.claims.value["sub"]
  {
    match ev.claims
    case None => None
    case Some(claims) => if "sub" in claims then Some(claims["sub"]) else None
  }

  /** The caller's identity as the gate accepts it: a `sub` claim that is present and non-empty. */
  function CallerId(ev: Event): (r: Option<string>)
    ensures r.Some? <==> GetUserId(ev).Some? && GetUserId(ev).value != ""
    ensures r.Some? ==> r.value != "" && GetUserId(ev) == r
  {
    match GetUserId(ev)
    case Some(u) => if u != "" then Some(u) else None
    case None => None
  }

  /** The text given to the JSON decoder: the body, or "{}" when it is absent or empty. */
  function BodyText(ev: Event): (t: string)
    ensures t != ""
    ensures ev.body.None? || ev.body.value == "" ==> t == "{}"
    ensures ev.body.Some? && ev.body.value != "" ==> t == ev.body.value
  {
    if ev.body.Some? && ev.body.value != "" then ev.body.value else "{}"
  }

  /** The `id` path parameter, or nothing when it (or the whole parameter object) is absent. */
  function PathId(ev: Event): (r: Option<string>)
    ensures r.Some? <==> ev.pathParameters.Some? && "id" in ev.pathParameters.value
    ensures r.Some? ==> r.value == ev.pathParameters.value["id"]
  {
    match ev.pathParameters
    case None => None
    case Some(params) => if "id" in params then Some(params["id"]) else None
  }

  /** The decoded body is a JSON object whenever decoding succeeds; anything else makes `body.get` (diary_handler.py line 59) raise. */
  predicate NoParseCrash(ev: Event, parse: Parser)
  {
    parse(BodyText(ev)).Some? ==> parse(BodyText(ev)).value.JObject?
  }

  /** The requests the handler answers without raising: only an authenticated POST decodes its body. */
  predicate Handled(ev: Event, parse: Parser)
  {
    ev.httpMethod == "POST" && CallerId(ev).Some? ==> NoParseCrash(ev, parse)
  }

  /** The item a POST stores: the sanitized `content` member ("" when absent) under the caller's id. */
  function NewItem(u: string, fields: map<string, Json>, freshId: string, now: string): (it: Item)
    ensures it.userId == u && it.entryId == freshId && it.createdAt == now
    ensures "content" !in fields ==> it.content == ""
    ensures "content" in fields ==> it.content == SanitizeContent(fields["content"])
    ensures "content" in fields && !fields["content"].JString? ==> it.content == ""
    ensures "content" in fields && fields["content"].JString? && NoEdgeSpace(fields["content"].str)
            ==> it.content == fields["content"].str
    ensures NoEdgeSpace(it.content)
  {
    Item(u, freshId, SanitizeContent(Member(fields, "content", JString(""))), now)
  }

  /** `get_entries(u)`: 200 with the caller's whole partition; the table is unchanged. */
  function ListOutcome(s: Store, u: string): (o: Outcome)
    ensures o.store == s && o.response.statusCode == 200
    ensures o.response == ResponseBuilder(200, o.response.body)
    ensures o.response.body.EntryList?
    ensures KeysMatch(s) ==>
              forall it :: it in o.response.body.items <==> it in s.Values && it.userId == u
  {
    Outcome(ResponseBuilder(200, EntryList(Partition(s, u))), s)
  }

  /** `create_entry(u, event)`. */
  function CreateOutcome(s: Store, u: string, ev: Event, parse: Parser, freshId: string, now: string): (o: Outcome)
    requires NoParseCrash(ev, parse)
    ensures parse(BodyText(ev)).None? ==>
              o.store == s && o.response == ResponseBuilder(400, Message("Invalid JSON"))
    ensures parse(BodyText(ev)).Some? ==>
              && o.response == ResponseBuilder(200, Message("Saved successfully"))
              && (u, freshId) in o.store
              && o.store[(u, freshId)] == NewItem(u, parse(BodyText(ev)).value.fields, freshId, now)
              && SameExcept(s, o.store, (u, freshId))
    ensures SameOutside(s, o.store, u)
    ensures KeysMatch(s) ==> KeysMatch(o.store)
  {
    match parse(BodyText(ev))
    case None => Outcome(ResponseBuilder(400, Message("Invalid JSON")), s)
    case Some(body) =>
      var item := NewItem(u, body.fields, freshId, now);
      Outcome(ResponseBuilder(200, Message("Saved successfully")), s[KeyOf(item) := item])
  }

  /** `delete_entry(u, event)`. */
  function DeleteOutcome(s: Store, u: string, ev: Event): (o: Outcome)
    ensures PathId(ev).None? || PathId(ev).value == "" ==>
              o.store == s && o.response == ResponseBuilder(400, Message("Missing entry id"))
    ensures PathId(ev).Some? && PathId(ev).value != "" ==>
              && o.response == ResponseBuilder(200, Message("Deleted successfully"))
              && (u, PathId(ev).value) !in o.store
              && SameExcept(s, o.store, (u, PathId(ev).value))
    ensures SameOutside(s, o.store, u)
    ensures KeysMatch(s) ==> KeysMatch(o.store)
  {
    match PathId(ev)
    case Some(id) =>
      if id != "" then Outcome(ResponseBuilder(200, Message("Deleted successfully")), s - {(u, id)})
      else Outcome(ResponseBuilder(400, Message("Missing entry id")), s)
    case None => Outcome(ResponseBuilder(400, Message("Missing entry id")), s)
  }

  /** `lambda_handler(event, context)` as a function of the table contents before the request. */
  function Dispatch(s: Store, ev: Event, parse: Parser, freshId: string, now: string): (o: Outcome)
    requires Handled(ev, parse)
    ensures o.response == ResponseBuilder(o.response.statusCode, o.response.body)
    ensures o.response.statusCode in {200, 400, 401}
    ensures o.response.statusCode != 200 ==> o.store == s
    ensures CallerId(ev).None? ==> o.store == s
    ensures CallerId(ev).Some? ==> SameOutside(s, o.store, CallerId(ev).value)
    ensures KeysMatch(s) ==> KeysMatch(o.store)
  {
    match CallerId(ev)
    case None => Outcome(ResponseBuilder(401, Message("Unauthorized")), s)
    case Some(u) =>
      if ev.httpMethod == "GET" then ListOutcome(s, u)
      else if ev.httpMethod == "POST" then CreateOutcome(s, u, ev, parse, freshId, now)
      else if ev.httpMethod == "DELETE" then DeleteOutcome(s, u, ev)
      else Outcome(ResponseBuilder(400, Message("Unsupported method")), s)
  }

  // ---------------------------------------------------------------------
  // The handler itself, working on the table in place
  // ---------------------------------------------------------------------

  method GetEntries(table: DiaryTable, u: string) returns (r: Response)
    requires table.Valid()
    ensures r.statusCode == 200 && r.body.EntryList?
    ensures forall it :: it in r.body.items <==> it in table.items.Values && it.userId == u
    ensures Outcome(r, table.items) == ListOutcome(table.items, u)
  {
    var found := table.Query(u);
    r := ResponseBuilder(200, EntryList(found));
  }

  method CreateEntry(table: DiaryTable, u: string, ev: Event, parse: Parser, freshId: string, now: string)
    returns (r: Response)
    requires table.Valid() && NoParseCrash(ev, parse)
    modifies table
    ensures table.Valid()
    ensures Outcome(r, table.items) == CreateOutcome(old(table.items), u, ev, parse, freshId, now)
  {
    var parsed := parse(BodyText(ev));
    if parsed.None? {
      return ResponseBuilder(400, Message("Invalid JSON"));
    }
    var content := SanitizeContent(Member(parsed.value.fields, "content", JString("")));
    table.PutItem(Item(u, freshId, content, now));
    r := ResponseBuilder(200, Message("Saved successfully"));
  }

  method DeleteEntry(table: DiaryTable, u: string, ev: Event) returns (r: Response)
    requires table.Valid()
    modifies table
    ensures table.Valid()
    ensures Outcome(r, table.items) == DeleteOutcome(old(table.items), u, ev)
  {
    var id := PathId(ev);
    if id.None? || id.value == "" {
      return ResponseBuilder(400, Message("Missing entry id"));
    }
    table.DeleteItem((u, id.value));
    r := ResponseBuilder(200, Message("Deleted successfully"));
  }

  method LambdaHandler(table: DiaryTable, ev: Event, parse: Parser, freshId: string, now: string)
    returns (r: Response)
    requires table.Valid() && Handled(ev, parse)
    modifies table
    ensures table.Valid()
    ensures Outcome(r, table.items) == Dispatch(old(table.items), ev, parse, freshId, now)
  {
    var userId := GetUserId(ev);
    if userId.None? || userId.value == "" {
      return ResponseBuilder(401, Message("Unauthorized"));
    }
    if ev.httpMethod == "GET" {
      r := GetEntries(table, userId.value);
      return;
    }
    if ev.httpMethod == "POST" {
      r := CreateEntry(table, userId.value, ev, parse, freshId, now);
      return;
    }
    if ev.httpMethod == "DELETE" {
      r := DeleteEntry(table, userId.value, ev);
      return;
    }
    r := ResponseBuilder(400, Message("Unsupported method"));
  }
}
