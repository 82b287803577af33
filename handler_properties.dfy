/**
 * What the handler promises, stated over `Dispatch`: which response wins,
 * which key is touched, that nothing else changes, and how operations from
 * one or two users compose.
 */
module HandlerProperties {
  import opened Wrappers
  import opened Json
  import opened Sanitizer
  import opened Entries
  import opened Responses
  import opened Handler

  /** Without an accepted identity the answer is 401, whatever the method, body or path. */
  lemma UnauthorizedWins(s: Store, ev: Event, parse: Parser, freshId: string, now: string)
    requires CallerId(ev).None?
    ensures Handled(ev, parse)
    ensures Dispatch(s, ev, parse, freshId, now) == Outcome(ResponseBuilder(401, Message("Unauthorized")), s)
  {
  }

  /** A missing `sub` claim and an empty one are both refused. */
  lemma EmptyOrMissingClaimRefused(ev: Event)
    requires ev.claims.None? || "sub" !in ev.claims.value || ev.claims.value["sub"] == ""
    ensures CallerId(ev).None?
  {
  }

  /** Any method other than exactly GET, POST or DELETE is refused without touching the table. */
  lemma UnsupportedMethod(s: Store, ev: Event, parse: Parser, freshId: string, now: string)
    requires CallerId(ev).Some?
    requires ev.httpMethod !in {"GET", "POST", "DELETE"}
    ensures Handled(ev, parse)
    ensures Dispatch(s, ev, parse, freshId, now) == Outcome(ResponseBuilder(400, Message("Unsupported method")), s)
  {
  }

  /** GET returns exactly the caller's items and changes nothing. */
  lemma GetListsOwnPartition(s: Store, ev: Event, parse: Parser, freshId: string, now: string)
    requires KeysMatch(s)
    requires CallerId(ev).Some? && ev.httpMethod == "GET"
    ensures Handled(ev, parse)
    ensures
      var o := Dispatch(s, ev, parse, freshId, now);
      && o.store == s
      && o.response.statusCode == 200
      && o.response.body.EntryList?
      && (forall it :: it in o.response.body.items <==> it in s.Values && it.userId == CallerId(ev).value)
  {
  }

  /** A GET for a user with no entries answers 200 with an empty list. */
  lemma GetEmptyPartition(s: Store, ev: Event, parse: Parser, freshId: string, now: string)
    requires CallerId(ev).Some? && ev.httpMethod == "GET"
    requires forall k :: k in s ==> k.0 != CallerId(ev).value
    ensures Handled(ev, parse)
    ensures Dispatch(s, ev, parse, freshId, now) == Outcome(ResponseBuilder(200, EntryList({})), s)
  {
  }

  /** A body the decoder rejects gives 400 "Invalid JSON" and the table is unchanged. */
  lemma PostInvalidJson(s: Store, ev: Event, parse: Parser, freshId: string, now: string)
    requires CallerId(ev).Some? && ev.httpMethod == "POST"
    requires parse(BodyText(ev)).None?
    ensures Handled(ev, parse)
    ensures Dispatch(s, ev, parse, freshId, now) == Outcome(ResponseBuilder(400, Message("Invalid JSON")), s)
  {
  }

  /** A decoded POST stores exactly one item, under (caller, fresh id), holding the sanitized content. */
  lemma PostStoresOneItem(s: Store, ev: Event, parse: Parser, fields: map<string, Json>, freshId: string, now: string)
    requires CallerId(ev).Some? && ev.httpMethod == "POST"
    requires parse(BodyText(ev)) == Some(JObject(fields))
    ensures Handled(ev, parse)
    ensures
      var u := CallerId(ev).value;
      var content := if "content" in fields then SanitizeContent(fields["content"]) else "";
      Dispatch(s, ev, parse, freshId, now)
        == Outcome(ResponseBuilder(200, Message("Saved successfully")),
                   s[(u, freshId) := Item(u, freshId, content, now)])
  {
  }

  /** An absent or empty body is read as "{}": the POST succeeds and stores empty content. */
  lemma PostWithoutBody(s: Store, ev: Event, parse: Parser, freshId: string, now: string)
    requires parse("{}") == Some(JObject(map[]))
    requires ev.body.None? || ev.body.value == ""
    requires CallerId(ev).Some? && ev.httpMethod == "POST"
    ensures Handled(ev, parse)
    ensures
      var u := CallerId(ev).value;
      Dispatch(s, ev, parse, freshId, now)
        == Outcome(ResponseBuilder(200, Message("Saved successfully")),
                   s[(u, freshId) := Item(u, freshId, "", now)])
  {
  }

  /** With a fresh key, a successful POST grows the table by exactly one entry. */
  lemma PostGrowsByOne(s: Store, ev: Event, parse: Parser, freshId: string, now: string)
    requires CallerId(ev).Some? && ev.httpMethod == "POST"
    requires parse(BodyText(ev)).Some? && parse(BodyText(ev)).value.JObject?
    requires (CallerId(ev).value, freshId) !in s
    ensures Handled(ev, parse)
    ensures
      var t := Dispatch(s, ev, parse, freshId, now).store;
      t.Keys == s.Keys + {(CallerId(ev).value, freshId)} && |t| == |s| + 1
  {
    PostStoresOneItem(s, ev, parse, parse(BodyText(ev)).value.fields, freshId, now);
  }

  /** DELETE without a usable id gives 400 "Missing entry id" and changes nothing. */
  lemma DeleteMissingId(s: Store, ev: Event, parse: Parser, freshId: string, now: string)
    requires CallerId(ev).Some? && ev.httpMethod == "DELETE"
    requires PathId(ev).None? || PathId(ev).value == ""
    ensures Handled(ev, parse)
    ensures Dispatch(s, ev, parse, freshId, now) == Outcome(ResponseBuilder(400, Message("Missing entry id")), s)
  {
  }

  /** DELETE removes the key (caller, id) and nothing else, whether or not it was present. */
  lemma DeleteRemovesOnlyKey(s: Store, ev: Event, parse: Parser, freshId: string, now: string)
    requires CallerId(ev).Some? && ev.httpMethod == "DELETE"
    requires PathId(ev).Some? && PathId(ev).value != ""
    ensures Handled(ev, parse)
    ensures Dispatch(s, ev, parse, freshId, now)
              == Outcome(ResponseBuilder(200, Message("Deleted successfully")),
                         s - {(CallerId(ev).value, PathId(ev).value)})
  {
  }

  /** Deleting an id the caller does not own (or that does not exist) is a 200 no-op. */
  lemma DeleteAbsentIsNoop(s: Store, ev: Event, parse: Parser, freshId: string, now: string)
    requires CallerId(ev).Some? && ev.httpMethod == "DELETE"
    requires PathId(ev).Some? && PathId(ev).value != ""
    requires (CallerId(ev).value, PathId(ev).value) !in s
    ensures Handled(ev, parse)
    ensures
      var o := Dispatch(s, ev, parse, freshId, now);
      o.store == s && o.response.statusCode == 200
  {
    var key := (CallerId(ev).value, PathId(ev).value);
    DeleteRemovesOnlyKey(s, ev, parse, freshId, now);
    assert s - {key} == s;
  }

  /** After a successful POST, a GET by the same user lists the new entry with its sanitized content. */
  lemma PostThenGetSeesEntry(s: Store, post: Event, get: Event, parse: Parser, fields: map<string, Json>,
                             freshId: string, now: string, later: string)
    requires KeysMatch(s)
    requires CallerId(post).Some? && post.httpMethod == "POST"
    requires parse(BodyText(post)) == Some(JObject(fields))
    requires get.httpMethod == "GET" && CallerId(get) == CallerId(post)
    ensures Handled(post, parse) && Handled(get, parse)
    ensures
      var s1 := Dispatch(s, post, parse, freshId, now).store;
      var listed := Dispatch(s1, get, parse, freshId, later).response.body;
      var u := CallerId(post).value;
      && listed.EntryList?
      && Item(u, freshId, SanitizeContent(Member(fields, "content", JString(""))), now) in listed.items
  {
    var u := CallerId(post).value;
    var s1 := Dispatch(s, post, parse, freshId, now).store;
    var it := NewItem(u, fields, freshId, now);
    assert s1[(u, freshId)] == it;
    assert it in s1.Values;
    GetListsOwnPartition(s1, get, parse, freshId, later);
  }

  /** Whatever one user does, another user's GET sees exactly what it saw before. */
  lemma OtherUsersIsolated(s: Store, ev: Event, get: Event, parse: Parser, freshId: string, now: string, later: string)
    requires Handled(ev, parse)
    requires get.httpMethod == "GET" && CallerId(get).Some?
    requires CallerId(ev) != CallerId(get)
    ensures Handled(get, parse)
    ensures
      var s1 := Dispatch(s, ev, parse, freshId, now).store;
      Dispatch(s1, get, parse, freshId, later).response == Dispatch(s, get, parse, freshId, later).response
  {
    var s1 := Dispatch(s, ev, parse, freshId, now).store;
    var v := CallerId(get).value;
    if CallerId(ev).Some? {
      PartitionUnchanged(s, s1, CallerId(ev).value, v);
    }
    assert Partition(s1, v) == Partition(s, v);
  }

  /** A change confined to partition `u` leaves every other partition `v` as it was. */
  lemma PartitionUnchanged(s: Store, t: Store, u: string, v: string)
    requires SameOutside(s, t, u) && u != v
    ensures Partition(s, v) == Partition(t, v)
  {
    forall it | it in Partition(s, v) ensures it in Partition(t, v) {
      var k :| k in s && k.0 == v && s[k] == it;
      assert k in t && t[k] == it;
    }
    forall it | it in Partition(t, v) ensures it in Partition(s, v) {
      var k :| k in t && k.0 == v && t[k] == it;
      assert k in s && s[k] == it;
    }
  }

  /** Two successful POSTs by one user with distinct fresh ids leave two distinct entries. */
  lemma TwoPostsTwoEntries(s: Store, ev1: Event, ev2: Event, parse: Parser, id1: string, id2: string, now1: string, now2: string)
    requires CallerId(ev1).Some? && CallerId(ev2) == CallerId(ev1)
    requires ev1.httpMethod == "POST" && ev2.httpMethod == "POST"
    requires parse(BodyText(ev1)).Some? && parse(BodyText(ev1)).value.JObject?
    requires parse(BodyText(ev2)).Some? && parse(BodyText(ev2)).value.JObject?
    requires id1 != id2
    ensures Handled(ev1, parse) && Handled(ev2, parse)
    ensures
      var u := CallerId(ev1).value;
      var s2 := Dispatch(Dispatch(s, ev1, parse, id1, now1).store, ev2, parse, id2, now2).store;
      && (u, id1) in s2 && s2[(u, id1)].entryId == id1 && s2[(u, id1)].createdAt == now1
      && (u, id2) in s2 && s2[(u, id2)].entryId == id2 && s2[(u, id2)].createdAt == now2
  {
    var u := CallerId(ev1).value;
    PostStoresOneItem(s, ev1, parse, parse(BodyText(ev1)).value.fields, id1, now1);
    var s1 := Dispatch(s, ev1, parse, id1, now1).store;
    PostStoresOneItem(s1, ev2, parse, parse(BodyText(ev2)).value.fields, id2, now2);
  }
}
